/**
 * The directory player: browsing the music tree below a root directory,
 * playing single files through the decoder, and playing a directory's files
 * one after another (the `_play_dir` thread, modelled one step at a time).
 */
module Player {
  import opened Text
  import opened PyValues
  import opened Sorting
  import opened Paths
  import opened Events
  import opened Decoder
  import opened Store

  /** `cur_file` of a listing: absent, `None`, or a name. */
  datatype CurFile = Unset | NoFile | Named(name: string)

  /** `_dirinfo`: subdirectories, `.mp3` files, their durations, the current file and directory. */
  datatype DirInfo = DirInfo(dirs: seq<string>, files: seq<string>, dur: seq<(nat, string)>,
                             cur: CurFile, curDir: Option<string>)

  /**
   * The `_play_dir` thread: not started (`_dirplay` is `None`), started but
   * not yet registered as a consumer, about to play `files[index]`, waiting
   * for the `eof` of `files[index]`, ended by an exception (`_dirplay` still
   * set), or blocked for good in `del_consumer` on its own full queue.
   */
  datatype DirPlay =
    | Idle
    | Starting(files: seq<string>)
    | Next(files: seq<string>, index: nat, handle: nat)
    | Waiting(files: seq<string>, index: nat, handle: nat)
    | Dead
    | Hung

  /** The thread is alive and not blocked. */
  predicate Running(p: DirPlay) {
    p.Starting? || p.Next? || p.Waiting?
  }

  /** Steps left to the end of the thread once the stop signal is set. */
  function Rank(p: DirPlay): nat {
    match p
    case Starting(_) => 3
    case Next(_, _, _) => 2
    case Waiting(_, _, _) => 1
    case _ => 0
  }

  /** The consumer id of the thread. */
  const PlayDirId: string := "_play_dir"

  // ---------------------------------------------------------------------------
  // Resolving directories
  // ---------------------------------------------------------------------------

  /**
   * `player_select_dir`'s target: a leading `/` is relative to the root
   * (`normpath(root + dir)`), anything else to the current directory
   * (`normpath(join(_dir, dir))`).
   */
  function Resolve(root: Path, dir: Path, arg: string): (p: Path)
    requires arg != ""
    ensures Clean(p)
  {
    if arg[0] == '/' then Normpath(PathString(root) + arg) else Normpath(Join(dir, arg))
  }

  /** A path written from the root lands below the root. */
  lemma ResolveFromRoot(root: Path, dir: Path, sub: Path)
    requires root != [] && sub != [] && Clean(root) && Clean(sub)
    ensures Resolve(root, dir, PathString(sub)) == root + sub
  {
    ComponentsAppend(root, sub);
    assert Clean(root + sub) by {
      forall i | 0 <= i < |root + sub| ensures (root + sub)[i] == if i < |root| then root[i] else sub[i - |root|] { }
    }
    NormpathOfString(root + sub);
  }

  /** A plain name is a child of the current directory. */
  lemma ResolveChild(root: Path, dir: Path, name: string)
    requires Clean(dir) && name != "" && name != "." && name != ".." && '/' !in name
    ensures Resolve(root, dir, name) == dir + [name]
  {
    assert name[0] != '/' by {
      assert name[0] in name;
    }
    JoinChild(dir, name);
    assert Clean(dir + [name]) by {
      forall i | 0 <= i < |dir + [name]| ensures (dir + [name])[i] == if i < |dir| then dir[i] else name { }
    }
    NormpathOfString(dir + [name]);
  }

  /** `..` is the parent of the current directory, and the root's own parent is the root. */
  lemma ResolveParent(root: Path, dir: Path)
    requires Clean(dir)
    ensures Resolve(root, dir, "..") == Dirname(dir)
  {
    SplitParent(dir);
    WalkParent(dir);
  }

  lemma SplitParent(dir: Path)
    requires Clean(dir)
    ensures Split(Join(dir, ".."), '/') == [""] + dir + [".."]
  {
    var q := dir + [".."];
    JoinChild(dir, "..");
    assert NoSlash(q) by {
      forall i | 0 <= i < |q| ensures q[i] == if i < |dir| then dir[i] else ".." { }
    }
    SplitPathString(q);
    assert [""] + q == [""] + dir + [".."];
  }

  lemma WalkParent(dir: Path)
    requires Clean(dir)
    ensures Walk([], [""] + dir + [".."]) == Dirname(dir)
  {
    assert NoSlash([""]) && NoSlash(dir) && NoSlash([".."]);
    WalkConcat([], [""], dir);
    WalkConcat([], [""] + dir, [".."]);
    WalkClean([], dir);
    assert Walk([], [""]) == [];
  }

  /** `dir_select`'s value: `_dir` without the root's prefix, plus a separator. */
  function CurDir(root: Path, dir: Path): string {
    Drop(PathString(dir), |PathString(root)|) + "/"
  }

  /** Below a root other than `/`, that is the directory relative to the root. */
  lemma CurDirRelative(root: Path, dir: Path)
    requires root != [] && IsPrefix(root, dir)
    ensures CurDir(root, dir) == Components(dir[|root|..]) + "/"
  {
    var rest := dir[|root|..];
    assert dir == root + rest;
    ComponentsAppend(root, rest);
  }

  // ---------------------------------------------------------------------------
  // Listings
  // ---------------------------------------------------------------------------

  /** The names `os.listdir(d)` returns. */
  function Children(fs: FileSystem, d: Path): (names: set<string>)
    ensures forall n :: n in names <==> d + [n] in fs
  {
    var names := set p | p in fs && |p| == |d| + 1 && p[..|d|] == d :: p[|d|];
    assert forall n :: d + [n] in fs ==> n in names by {
      forall n | d + [n] in fs ensures n in names {
        var p := d + [n];
        assert p[..|d|] == d && p[|d|] == n;
      }
    }
    assert forall n :: n in names ==> d + [n] in fs by {
      forall n | n in names ensures d + [n] in fs {
        var p :| p in fs && |p| == |d| + 1 && p[..|d|] == d && p[|d|] == n;
        assert p == d + [n];
      }
    }
    names
  }

  /** A regular file named `*.mp3` directly inside `d`. */
  predicate IsTrack(fs: FileSystem, d: Path, n: string) {
    d + [n] in fs && fs[d + [n]] == RegularFile && EndsWith(n, ".mp3")
  }

  /** A directory directly inside `d`. */
  predicate IsSubdir(fs: FileSystem, d: Path, n: string) {
    d + [n] in fs && fs[d + [n]] == Directory
  }

  /** `(secs, _pp_time(secs))` for a file. */
  function Duration(duration: string -> nat, path: string): (nat, string) {
    (duration(path), PpTime(duration(path)))
  }

  /** One entry per name, in order: the loop that fills `dur` with `(secs, _pp_time(secs))`. */
  method MapNames<T>(f: string -> T, names: seq<string>) returns (r: seq<T>)
    ensures |r| == |names|
    ensures forall j :: 0 <= j < |names| ==> r[j] == f(names[j])
  {
    r := [];
    for i := 0 to |names|
      invariant |r| == i
      invariant forall j :: 0 <= j < i ==> r[j] == f(names[j])
    {
      r := r + [f(names[i])];
    }
  }

  /**
   * The loop over `os.listdir(d)`: regular `.mp3` files go to `files`, every
   * other entry to `dirs` (after `parent`); both are then sorted.
   */
  method Scan(fs: FileSystem, root: Path, d: Path) returns (dirs: seq<string>, files: seq<string>)
    requires forall p :: p in fs ==> Clean(p)
    ensures Scanned(fs, root, d, dirs, files)
  {
    var names := Children(fs, d);
    var parent := Parent(root, d);
    forall n | n in names ensures n !in parent {
      assert Clean(d + [n]) && (d + [n])[|d|] == n;
    }
    dirs, files := Sift(fs, d, parent, names);
    SortDistinct(files);
    SortDistinct(dirs);
    files := Sort(files);
    dirs := Sort(dirs);
  }

  /** The loop itself: each entry of the directory goes to `files`, to `dirs` or nowhere. */
  method Sift(fs: FileSystem, d: Path, parent: seq<string>, names: set<string>)
    returns (dirs: seq<string>, files: seq<string>)
    requires Distinct(parent)
    requires forall n :: n in names ==> d + [n] in fs && n !in parent
    ensures Sifted(fs, d, parent, names, dirs, files)
  {
    dirs, files := parent, [];
    var rest := names;
    while rest != {}
      invariant rest <= names
      invariant Sifted(fs, d, parent, names - rest, dirs, files)
      decreases rest
    {
      var n :| n in rest;
      ScanStep(fs, d, parent, names - rest, dirs, files, n);
      if fs[d + [n]] == RegularFile {
        if EndsWith(n, ".mp3") {
          files := files + [n];
        }
      } else {
        dirs := dirs + [n];
      }
      assert names - (rest - {n}) == (names - rest) + {n};
      rest := rest - {n};
    }
  }

  /**
   * Part way through the loop of `Scan`: the names `seen` so far are
   * sorted into `files` and `dirs` (after `parent`), each once.
   */
  ghost predicate Sifted(fs: FileSystem, d: Path, parent: seq<string>, seen: set<string>,
                         dirs: seq<string>, files: seq<string>) {
    Distinct(files) && Distinct(dirs) &&
    (forall n :: n in files <==> n in seen && IsTrack(fs, d, n)) &&
    (forall n :: n in dirs <==> n in parent || (n in seen && IsSubdir(fs, d, n)))
  }

  /** One more name of the directory sorted into its list. */
  lemma ScanStep(fs: FileSystem, d: Path, parent: seq<string>, seen: set<string>,
                 dirs: seq<string>, files: seq<string>, n: string)
    requires Sifted(fs, d, parent, seen, dirs, files)
    requires n !in seen && n !in parent && d + [n] in fs
    ensures var track := fs[d + [n]] == RegularFile && EndsWith(n, ".mp3");
            var subdir := fs[d + [n]] != RegularFile;
            Sifted(fs, d, parent, seen + {n},
                    if subdir then dirs + [n] else dirs,
                    if track then files + [n] else files)
  {
    if fs[d + [n]] == RegularFile {
      if EndsWith(n, ".mp3") {
        AppendDistinct(files, n);
      }
    } else {
      AppendDistinct(dirs, n);
    }
  }

  /** Appending an element not yet present keeps a list free of repeats. */
  lemma AppendDistinct(s: seq<string>, x: string)
    requires Distinct(s) && x !in s
    ensures Distinct(s + [x])
  {
  }

  /**
   * A listing of `d` as `_get_dirinfo` builds it: `..` exactly below the
   * root, every subdirectory and every `.mp3` file once and in sorted order,
   * and one duration per file, in the same order.
   */
  ghost predicate Listed(fs: FileSystem, root: Path, duration: string -> nat, d: Path, info: DirInfo) {
    Scanned(fs, root, d, info.dirs, info.files) &&
    |info.dur| == |info.files| &&
    (forall i :: 0 <= i < |info.files| ==> info.dur[i] == Duration(duration, Join(d, info.files[i])))
  }

  /** The entries `_get_dirinfo` starts `dirs` with: `..` everywhere below the root. */
  function Parent(root: Path, d: Path): seq<string> {
    if d != root then [".."] else []
  }

  /** The two name lists of a listing of `d`. */
  ghost predicate Scanned(fs: FileSystem, root: Path, d: Path, dirs: seq<string>, files: seq<string>) {
    StrictlySorted(dirs) && StrictlySorted(files) &&
    (forall n :: n in files <==> IsTrack(fs, d, n)) &&
    (forall n :: n in dirs <==> n in Parent(root, d) || IsSubdir(fs, d, n))
  }

  /** What is left of `_dirinfo` when listing the directory fails. */
  function Unlisted(root: Path, d: Path): DirInfo {
    DirInfo(Parent(root, d), [], [], Unset, None)
  }

  // ---------------------------------------------------------------------------
  // Playing a directory
  // ---------------------------------------------------------------------------

  /** The first position of `x` in `s`. */
  function FirstIndex(s: seq<string>, x: string): (k: nat)
    requires x in s
    ensures k < |s| && s[k] == x && x !in s[..k]
  {
    if s[0] == x then 0
    else
      var k := 1 + FirstIndex(s[1..], x);
      assert s[..k] == [s[0]] + s[1..][..k - 1];
      k
  }

  /**
   * The play list of `player_play_dir(start)`: `TypeError` without a
   * listing, all its files without `start`, else the files from the first
   * occurrence of `start` on (`ValueError` when it is absent).
   */
  function Playlist(info: Option<DirInfo>, start: string): (r: Result<seq<string>, string>)
    ensures r == Err("TypeError") <==> info.None?
    ensures info.Some? ==>
              (r.Ok? <==> start == "" || start in info.value.files) &&
              (r.Err? ==> r.error == "ValueError")
    ensures r.Ok? && start == "" ==> r.value == info.value.files
    ensures r.Ok? && start != "" ==> FromStart(info.value.files, start) == Some(r.value)
  {
    if info.None? then Err("TypeError")
    else if start == "" then Ok(info.value.files)
    else match FromStart(info.value.files, start)
      case None => Err("ValueError")
      case Some(files) => Ok(files)
  }

  /**
   * `player_play_dir(start)`'s play list: the files from the first
   * occurrence of `start` on; `None` (a `ValueError`) when it is absent.
   */
  function FromStart(files: seq<string>, start: string): (r: Option<seq<string>>)
    ensures r.Some? <==> start in files
    ensures r.Some? ==> |r.value| <= |files| && r.value != [] && r.value[0] == start &&
                        files == files[..|files| - |r.value|] + r.value &&
                        start !in files[..|files| - |r.value|]
  {
    if start !in files then None
    else
      var k := FirstIndex(files, start);
      assert files == files[..k] + files[k..];
      Some(files[k..])
  }

  /** How the waiting loop reacts to one item of its queue. */
  datatype Reaction =
    /** Keep waiting. */
    | Keep
    /** The current file has ended: go on with the next one. */
    | Advance
    /** The end-of-stream `None`: stop playing. */
    | Finish
    /** An `eof` without a dict value or a `name` raises and ends the thread. */
    | Fail

  function OnItem(fname: string, item: Item): Reaction {
    match item
    case None => Finish
    case Some(ev) =>
      if ev.kind != "eof" then Keep
      else if !ev.value.Dict? || !HasKey(ev.value.entries, "name") then Fail
      else if Get(ev.value.entries, "name") == Some(Str(fname)) then Advance
      else Keep
  }

  /**
   * The `eof` the decoder publishes when a file of the directory ends names
   * that file as the player knows it, so the waiting loop moves on; an `eof`
   * for any other name keeps it waiting.
   */
  lemma DecoderEofAdvances(dir: Path, fname: string, other: string, last: bool, text: string)
    requires '/' !in fname && other != fname
    ensures var played := Target(Join(dir, fname));
            OnItem(fname, Stamp(Event("eof", Dict([("name", UrlValue(Some(played))), ("last", Bool(last))])), text)) == Advance
    ensures OnItem(fname, Stamp(Event("eof", Dict([("name", Str(other)), ("last", Bool(last))])), text)) == Keep
  {
    var path := Join(dir, fname);
    assert !IsHttp(path) by {
      NotStartsWith(path, "http", 0);
    }
    if dir == [] {
      assert path == "" + "/" + fname;
      BasenameJoin("", fname);
    } else {
      BasenameJoin(PathString(dir), fname);
    }
    var entries := [("name", Str(fname)), ("last", Bool(last))];
    assert entries[0].0 == "name";
    var others := [("name", Str(other)), ("last", Bool(last))];
    assert others[0].0 == "name";
  }

  /** The duration value of `file_info` and of the stored play time. */
  function FileInfo(path: string, total: nat, last: bool): PyDict {
    [("name", Str(Basename(path))), ("total", Int(total)), ("total_pretty", Str(PpTime(total))),
     ("last", Bool(last))]
  }

  /** `player_play_file`'s target: an absolute name as it is, else joined to the directory. */
  function Located(dir: Path, name: string): string
    requires name != ""
  {
    if name[0] == '/' then name else Join(dir, name)
  }

  /** The `time` entry `player_play_file` records: `[0, total, total_pretty]`. */
  function TimeEntry(total: nat): Value {
    List([Int(0), Int(total), Str(PpTime(total))])
  }

  /**
   * The state after `player_play_file` had the backend play `path` of
   * `total` seconds: `last_file` when the backend started it, then `time`;
   * nothing when the backend hangs.
   */
  function Saved(state: PyDict, path: string, total: nat, started: bool, blocked: bool): PyDict {
    if blocked then state
    else Recorded(if started then Recorded(state, "player", "last_file", Str(Basename(path))) else state,
                  "player", "time", TimeEntry(total))
  }

  /**
   * Whether `_del_consumer("_play_dir")` blocks for good: `put(None)` on the
   * thread's own full queue waits for a reader that is the thread itself.
   */
  predicate PutBlocks(queues: seq<seq<Item>>, registry: map<string, nat>)
    requires InRange(registry, |queues|)
  {
    PlayDirId in registry && |queues[registry[PlayDirId]]| == QueueSize
  }

  /**
   * What `_play_dir`'s clean-up leaves behind: the thread hangs when
   * removing its consumer blocks, or when the backend's `stop` waits for a
   * reader that has ended; otherwise it is gone.
   */
  function Cleaned(queues: seq<seq<Item>>, registry: map<string, nat>, stopBlocks: bool): DirPlay
    requires InRange(registry, |queues|)
  {
    if PutBlocks(queues, registry) || stopBlocks then Hung else Idle
  }

  // ---------------------------------------------------------------------------
  // The player
  // ---------------------------------------------------------------------------

  class Player {
    const bus: RadioEvents
    const store: WebRadio
    const backend: Mpg123
    /** What exists below `/`. */
    const fs: FileSystem
    /** `_root_dir`: nothing outside it can be selected. */
    const root: Path
    /** `mp3info -p %S`: the length in seconds of the file at a path. */
    const duration: string -> nat
    /** `_dir`: the current directory. */
    var dir: Path
    /** `_file`: the current file as a path string; empty when unset. */
    var file: string
    /** `_dirinfo`: the cached listing of the current directory. */
    var dirinfo: Option<DirInfo>
    /** `_dirplay`: the thread playing a directory. */
    var dirplay: DirPlay
    /** `_dirstop`: the signal asking that thread to end. */
    var stopRequested: bool
    /** `_lock` was left acquired by a listing that raised; selecting blocks from then on. */
    var lockHeld: bool

    ghost predicate Valid()
      reads this, bus, store
    {
      bus.Valid() && store.Valid() && store.bus == bus && backend.bus == bus &&
      Clean(root) && Clean(dir) && (forall p :: p in fs ==> Clean(p)) &&
      (dirplay.Next? ==> dirplay.index <= |dirplay.files| && dirplay.handle < |bus.queues|) &&
      (dirplay.Waiting? ==> dirplay.index < |dirplay.files| && dirplay.handle < |bus.queues|)
    }

    /** The player starts in its default directory, with nothing cached and nothing playing. */
    constructor(bus: RadioEvents, store: WebRadio, backend: Mpg123, fs: FileSystem, root: Path,
                defDir: Path, duration: string -> nat)
      requires bus.Valid() && store.Valid() && store.bus == bus && backend.bus == bus
      requires Clean(root) && Clean(defDir) && forall p :: p in fs ==> Clean(p)
      ensures Valid()
      ensures this.bus == bus && this.store == store && this.backend == backend
      ensures this.fs == fs && this.root == root && this.duration == duration
      ensures dir == defDir && file == "" && dirinfo == None && dirplay == Idle
      ensures !stopRequested && !lockHeld
    {
      this.bus := bus;
      this.store := store;
      this.backend := backend;
      this.fs := fs;
      this.root := root;
      this.duration := duration;
      dir := defDir;
      file := "";
      dirinfo := None;
      dirplay := Idle;
      stopRequested := false;
      lockHeld := false;
    }

    /**
     * `_get_dirinfo(_dir, init)`: list the current directory. When it is
     * missing or not a directory, the listing raises and only the partial
     * listing is left behind.
     */
    method GetDirinfo(init: bool) returns (ok: bool)
      requires Valid()
      modifies this`dirinfo, this`file, store`state, bus`input
      ensures Valid() && bus.input == old(bus.input)
      ensures ok <==> dir in fs && fs[dir] == Directory
      ensures !ok ==> dirinfo == Some(Unlisted(root, dir)) && file == old(file) && store.state == old(store.state)
      ensures ok ==> dirinfo.Some? && Listed(fs, root, duration, dir, dirinfo.value) && dirinfo.value.curDir == None
      ensures ok && old(file) != "" && init ==>
                dirinfo.value.cur == Named(Basename(old(file))) && file == old(file) && store.state == old(store.state)
      ensures ok && !(old(file) != "" && init) && dirinfo.value.files != [] ==>
                dirinfo.value.cur == Named(dirinfo.value.files[0]) && file == Join(dir, dirinfo.value.files[0]) &&
                store.state == Recorded(old(store.state), "player", "last_file", Str(dirinfo.value.files[0]))
      ensures ok && !(old(file) != "" && init) && dirinfo.value.files == [] ==>
                dirinfo.value.cur == NoFile && file == old(file) &&
                store.state == Recorded(old(store.state), "player", "last_file", Null)
    {
      if dir !in fs || fs[dir] != Directory {
        dirinfo := Some(Unlisted(root, dir));
        return false;
      }
      var dirs, files := Scan(fs, root, dir);
      var cur := ChooseCurrent(files, init);
      var d := dir;
      var dur := MapNames(name => Duration(duration, Join(d, name)), files);
      dirinfo := Some(DirInfo(dirs, files, dur, cur, None));
      ok := true;
    }

    /**
     * The `cur_file` of a fresh listing: at start-up a file already set is
     * kept; otherwise the first track becomes the current file (or none does)
     * and is recorded as the player's `last_file`.
     */
    method ChooseCurrent(files: seq<string>, init: bool) returns (cur: CurFile)
      requires Valid()
      modifies this`file, store`state, bus`input
      ensures Valid() && bus.input == old(bus.input)
      ensures old(file) != "" && init ==> cur == Named(Basename(old(file))) && file == old(file) && store.state == old(store.state)
      ensures !(old(file) != "" && init) && files != [] ==>
                cur == Named(files[0]) && file == Join(dir, files[0]) &&
                store.state == Recorded(old(store.state), "player", "last_file", Str(files[0]))
      ensures !(old(file) != "" && init) && files == [] ==>
                cur == NoFile && file == old(file) &&
                store.state == Recorded(old(store.state), "player", "last_file", Null)
    {
      if file != "" && init {
        cur := Named(Basename(file));
      } else {
        if files != [] {
          file := Join(dir, files[0]);
          cur := Named(files[0]);
        } else {
          cur := NoFile;
        }
        store.Record("player", "last_file", if cur.Named? then Str(cur.name) else Null);
      }
    }

    /** Whether `player_play_file(name)` gets past its checks. */
    predicate Playable(name: string)
      reads this
    {
      if name != "" then CheckFile(fs, root, Normpath(Located(dir, name))) else file != ""
    }

    /**
     * The directory `player_select_dir(arg)` moves to, or `None` when the
     * argument fails `_check_dir`.
     */
    function Chosen(arg: string): Option<Path>
      reads this
    {
      if arg == "" then Some(dir)
      else if CheckDir(fs, root, Resolve(root, dir, arg)) then Some(Resolve(root, dir, arg))
      else None
    }

    /**
     * `player_select_dir(arg)`: a leading `/` is resolved against the root,
     * anything else against the current directory; the empty argument keeps
     * the current directory unchecked. The listing is reused only when the
     * directory stays the same and one is cached. A listing that raises keeps
     * the lock, so every later call blocks.
     */
    method SelectDir(arg: string) returns (r: Result<DirInfo, string>)
      requires Valid()
      modifies this`dir, this`dirinfo, this`file, this`lockHeld, store`state, bus`input
      ensures Valid()
      ensures old(lockHeld) ==> r == Err("blocked") && lockHeld && dir == old(dir) && dirinfo == old(dirinfo) &&
                                 file == old(file) && store.state == old(store.state) && bus.input == old(bus.input)
      ensures !old(lockHeld) && old(Chosen(arg)).None? ==>
                r == Err("ValueError") && !lockHeld && dir == old(dir) && dirinfo == old(dirinfo) &&
                file == old(file) && store.state == old(store.state) && bus.input == old(bus.input)
      ensures !old(lockHeld) && old(Chosen(arg)).Some? ==>
                dir == old(Chosen(arg)).value &&
                bus.input == old(bus.input) + [Event("dir_select", Str(CurDir(root, dir)))]
      ensures !old(lockHeld) && old(Chosen(arg)).Some? && dir == old(dir) && old(dirinfo).Some? ==>
                r == Ok(old(dirinfo).value) && dirinfo == old(dirinfo) && !lockHeld && file == old(file) &&
                store.state == Recorded(old(store.state), "player", "last_dir", Str(CurDir(root, dir)))
      ensures !old(lockHeld) && old(Chosen(arg)).Some? && !(dir == old(dir) && old(dirinfo).Some?) ==>
                (r.Ok? <==> dir in fs && fs[dir] == Directory) &&
                (r.Ok? ==> dirinfo == Some(r.value) && !lockHeld && Listed(fs, root, duration, dir, r.value) &&
                           r.value.curDir == Some(CurDir(root, dir)) &&
                           Picked(r.value, old(file),
                                  Recorded(old(store.state), "player", "last_dir", Str(CurDir(root, dir))))) &&
                (r.Err? ==> r.error == "OSError" && lockHeld && dirinfo == Some(Unlisted(root, dir)) &&
                            file == old(file) &&
                            store.state == Recorded(old(store.state), "player", "last_dir", Str(CurDir(root, dir))))
    {
      if lockHeld {
        return Err("blocked");
      }
      var d := Chosen(arg);
      if d.None? {
        return Err("ValueError");
      }
      var cacheValid := d.value == dir && dirinfo.Some?;
      dir := d.value;
      var curDir := CurDir(root, dir);
      Announce(curDir);
      if cacheValid {
        r := Ok(dirinfo.value);
      } else {
        r := Relist(curDir);
      }
    }

    /** The `dir_select` event and the `last_dir` entry of `player_select_dir`. */
    method Announce(curDir: string)
      requires Valid()
      modifies store`state, bus`input
      ensures Valid()
      ensures bus.input == old(bus.input) + [Event("dir_select", Str(curDir))]
      ensures store.state == Recorded(old(store.state), "player", "last_dir", Str(curDir))
    {
      assert bus.Valid() && store.Valid();
      bus.Push(Event("dir_select", Str(curDir)));
      assert bus.Valid();
      store.Record("player", "last_dir", Str(curDir));
      assert bus.Valid() && store.Valid();
    }

    /**
     * What a fresh listing outside start-up leaves behind, from the current
     * file `file0` and the settings `state0` before it: its first track
     * becomes the current file and the player's `last_file`, or, in a
     * directory without tracks, there is no current track and `last_file`
     * is cleared.
     */
    predicate Picked(info: DirInfo, file0: string, state0: PyDict)
      reads this, store
    {
      if info.files != [] then
        info.cur == Named(info.files[0]) && file == Join(dir, info.files[0]) &&
        store.state == Recorded(state0, "player", "last_file", Str(info.files[0]))
      else
        info.cur == NoFile && file == file0 && store.state == Recorded(state0, "player", "last_file", Null)
    }

    /** A fresh listing for `player_select_dir`, tagged with the directory relative to the root. */
    method Relist(curDir: string) returns (r: Result<DirInfo, string>)
      requires Valid()
      modifies this`dirinfo, this`file, this`lockHeld, store`state, bus`input
      ensures Valid() && bus.input == old(bus.input)
      ensures r.Ok? <==> dir in fs && fs[dir] == Directory
      ensures r.Ok? ==> dirinfo == Some(r.value) && lockHeld == old(lockHeld) &&
                        Listed(fs, root, duration, dir, r.value) && r.value.curDir == Some(curDir) &&
                        Picked(r.value, old(file), old(store.state))
      ensures r.Err? ==> r.error == "OSError" && lockHeld && dirinfo == Some(Unlisted(root, dir)) &&
                         file == old(file) && store.state == old(store.state)
    {
      var ok := GetDirinfo(false);
      if !ok {
        lockHeld := true;
        return Err("OSError");
      }
      dirinfo := Some(dirinfo.value.(curDir := Some(curDir)));
      r := Ok(dirinfo.value);
    }

    /**
     * `player_play_file(name, last)`: a relative name is taken from the
     * current directory and must pass `_check_file`; without a name the
     * current file is played. The `file_info` event is published before the
     * backend is asked to play, and `last_file` is recorded only when the
     * backend loads the file. When the backend hangs in `play`, the call
     * never returns: `Err("blocked")`.
     */
    method PlayFile(name: string, last: bool) returns (r: Result<PyDict, string>)
      requires Valid()
      modifies this`file, this`dirinfo, store`state, bus`input, backend
      ensures Valid()
      ensures !old(Playable(name)) ==>
                r == Err("ValueError") && file == old(file) && dirinfo == old(dirinfo) &&
                store.state == old(store.state) && bus.input == old(bus.input) && unchanged(backend)
      ensures old(Playable(name)) ==>
                file == (if name != "" then Located(dir, name) else old(file)) &&
                dirinfo == (if old(dirinfo).Some? then Some(old(dirinfo).value.(cur := Named(file))) else None) &&
                bus.input == old(bus.input) + [Event("file_info", Dict(FileInfo(file, duration(file), last)))] +
                             PlayEvents(old(backend.hasProcess), old(backend.playing), old(backend.url),
                                        old(backend.readerAlive), file)
      ensures old(Playable(name)) ==>
                var started := Loads(old(backend.hasProcess), old(backend.playing), old(backend.url),
                                     old(backend.readerAlive), file);
                var blocked := PlayBlocks(old(backend.hasProcess), old(backend.playing), old(backend.url),
                                          old(backend.readerAlive), file);
                r == (if blocked then Err("blocked") else Ok(FileInfo(file, duration(file), last))) &&
                (started ==> backend.url == Some(Target(file)) && backend.last == last) &&
                store.state == Saved(old(store.state), file, duration(file), started, blocked)
    {
      var ok := Choose(name);
      if !ok {
        return Err("ValueError");
      }
      assert bus.Valid() && store.Valid();
      if dirinfo.Some? {
        dirinfo := Some(dirinfo.value.(cur := Named(file)));
      }
      var info, blocked := Start(last);
      r := if blocked then Err("blocked") else Ok(info);
    }

    /** The checks of `player_play_file`: the named file becomes the current one when it passes. */
    method Choose(name: string) returns (ok: bool)
      modifies this`file
      ensures ok == old(Playable(name))
      ensures ok ==> file == (if name != "" then Located(dir, name) else old(file)) && file != ""
      ensures !ok ==> file == old(file)
    {
      if name != "" {
        var path := Located(dir, name);
        if !CheckFile(fs, root, Normpath(path)) {
          return false;
        }
        file := path;
      }
      ok := file != "";
    }

    /**
     * The current file's `file_info` is published, then the backend plays the
     * file; what it reports decides whether `last_file` is recorded.
     */
    method Start(last: bool) returns (info: PyDict, blocked: bool)
      requires Valid() && file != ""
      modifies store`state, bus`input, backend
      ensures Valid()
      ensures info == FileInfo(file, duration(file), last)
      ensures bus.input == old(bus.input) + [Event("file_info", Dict(info))] +
                           PlayEvents(old(backend.hasProcess), old(backend.playing), old(backend.url),
                                      old(backend.readerAlive), file)
      ensures blocked == PlayBlocks(old(backend.hasProcess), old(backend.playing), old(backend.url),
                                    old(backend.readerAlive), file)
      ensures var started := Loads(old(backend.hasProcess), old(backend.playing), old(backend.url),
                                   old(backend.readerAlive), file);
              (started ==> backend.url == Some(Target(file)) && backend.last == last) &&
              store.state == Saved(old(store.state), file, duration(file), started, blocked)
    {
      info := FileInfo(file, duration(file), last);
      bus.Push(Event("file_info", Dict(info)));
      assert bus.Valid();
      blocked := Load(last);
      assert bus.Valid();
    }

    /**
     * `backend.play` of the current file, then the `last_file` and `time`
     * entries; nothing is recorded when `play` hangs.
     */
    method Load(last: bool) returns (blocked: bool)
      requires store.Valid() && store.bus == bus && backend.bus == bus
      modifies store`state, bus`input, backend
      ensures store.Valid()
      ensures bus.input == old(bus.input) + PlayEvents(old(backend.hasProcess), old(backend.playing), old(backend.url),
                                                       old(backend.readerAlive), file)
      ensures blocked == PlayBlocks(old(backend.hasProcess), old(backend.playing), old(backend.url),
                                    old(backend.readerAlive), file)
      ensures var started := Loads(old(backend.hasProcess), old(backend.playing), old(backend.url),
                                   old(backend.readerAlive), file);
              (started ==> backend.url == Some(Target(file)) && backend.last == last) &&
              store.state == Saved(old(store.state), file, duration(file), started, blocked)
    {
      var started;
      started, blocked := backend.Play(file, last);
      if blocked {
        return;
      }
      if started {
        store.Record("player", "last_file", Str(Basename(file)));
      }
      store.Record("player", "time", TimeEntry(duration(file)));
    }

    // --- `_play_dir`, one step of the thread at a time ---------------------------

    /**
     * What a `_play_dir` thread that ran through its clean-up leaves behind:
     * its consumer is no longer registered and, while the backend plays,
     * `STOP` is the last command the backend was sent.
     */
    predicate Released()
      reads this, bus, backend
    {
      PlayDirId !in bus.registry &&
      (backend.playing && backend.hasProcess ==> backend.stdin != [] && backend.stdin[|backend.stdin| - 1] == "STOP\n")
    }

    /**
     * The thread's clean-up: its consumer is removed (`put(None)` blocks for
     * good on a full queue), then the backend is stopped (which blocks for
     * good when the decoder's reader has ended).
     */
    method Cleanup()
      requires Valid()
      modifies this`dirplay, bus`queues, bus`registry, backend`last, backend`stdin, backend`awaitingAck
      ensures Valid()
      ensures dirplay == Cleaned(old(bus.queues), old(bus.registry),
                                 StopBlocks(backend.hasProcess, backend.playing, backend.readerAlive))
      ensures old(PutBlocks(bus.queues, bus.registry)) ==>
                bus.queues == old(bus.queues) && bus.registry == old(bus.registry) &&
                backend.stdin == old(backend.stdin)
      ensures !old(PutBlocks(bus.queues, bus.registry)) ==>
                bus.registry == old(bus.registry) - {PlayDirId} &&
                bus.queues == (if PlayDirId in old(bus.registry)
                               then old(bus.queues)[old(bus.registry)[PlayDirId] := old(bus.queues)[old(bus.registry)[PlayDirId]] + [None]]
                               else old(bus.queues)) &&
                backend.stdin == old(backend.stdin) + (if backend.playing && backend.hasProcess then ["STOP\n"] else [])
      ensures dirplay.Idle? ==> Released()
    {
      var done := bus.DelConsumer(PlayDirId);
      if !done {
        dirplay := Hung;
        return;
      }
      var blocked := backend.Stop(true);
      dirplay := if blocked then Hung else Idle;
    }

    /** The thread starts: it registers its consumer `_play_dir`, then turns to the first file. */
    method Begin()
      requires Valid() && dirplay.Starting?
      modifies this`dirplay, bus`queues, bus`registry
      ensures Valid()
      ensures PlayDirId in bus.registry && dirplay == Next(old(dirplay).files, 0, bus.registry[PlayDirId])
      ensures PlayDirId !in old(bus.registry) ==>
                bus.queues[dirplay.handle] ==
                  [Some(Delivered("version", Str(Version), "pi-webradio version " + Version)),
                   Some(Delivered("state", Dict(store.state), ReprEvent(Event("state", Dict(store.state)))))]
    {
      var h := store.Subscribe(PlayDirId);
      dirplay := Next(dirplay.files, 0, h);
    }

    /**
     * The loop's next file: `last` is passed only for the final one; a file
     * that `player_play_file` refuses ends the thread with the error, and a
     * `play` that hangs leaves the thread hanging. Past the last file the
     * thread cleans up.
     */
    method PlayNext()
      requires Valid() && dirplay.Next?
      modifies this`dirplay, this`file, this`dirinfo, store`state, bus`input, bus`queues, bus`registry, backend
      ensures Valid()
      ensures old(dirplay).index == |old(dirplay).files| ==>
                dirplay == Cleaned(old(bus.queues), old(bus.registry),
                                   StopBlocks(old(backend.hasProcess), old(backend.playing), old(backend.readerAlive)))
      ensures var p := old(dirplay);
              p.index < |p.files| ==>
                dirplay == (if !old(Playable(p.files[p.index])) then Dead
                            else if PlayBlocks(old(backend.hasProcess), old(backend.playing), old(backend.url),
                                               old(backend.readerAlive), file) then Hung
                            else Waiting(p.files, p.index, p.handle)) &&
                (old(Playable(p.files[p.index])) ==>
                   file == (if p.files[p.index] != "" then Located(dir, p.files[p.index]) else old(file)) &&
                   bus.input == old(bus.input) +
                                [Event("file_info", Dict(FileInfo(file, duration(file), p.index == |p.files| - 1)))] +
                                PlayEvents(old(backend.hasProcess), old(backend.playing), old(backend.url),
                                           old(backend.readerAlive), file) &&
                   store.state == Saved(old(store.state), file, duration(file),
                                        Loads(old(backend.hasProcess), old(backend.playing), old(backend.url),
                                              old(backend.readerAlive), file),
                                        PlayBlocks(old(backend.hasProcess), old(backend.playing), old(backend.url),
                                                   old(backend.readerAlive), file))) &&
                (!old(Playable(p.files[p.index])) ==> store.state == old(store.state) && bus.input == old(bus.input))
      ensures dirplay.Idle? ==> Released()
    {
      var p := dirplay;
      if p.index == |p.files| {
        Cleanup();
        return;
      }
      var r := PlayFile(p.files[p.index], p.index == |p.files| - 1);
      dirplay := if r.Ok? then Waiting(p.files, p.index, p.handle) else if r == Err("blocked") then Hung else Dead;
    }

    /**
     * One pass of the waiting loop: the stop signal ends the thread; else one
     * item is taken from the thread's queue, if there is one. Only the `eof`
     * of the file being played moves on to the next file; the `None`
     * sentinel ends the thread; an `eof` without a name kills it.
     */
    method Poll()
      requires Valid() && dirplay.Waiting?
      modifies this`dirplay, bus`queues, bus`registry, backend`last, backend`stdin, backend`awaitingAck
      ensures Valid()
      ensures old(stopRequested) ==>
                dirplay == Cleaned(old(bus.queues), old(bus.registry),
                                   StopBlocks(backend.hasProcess, backend.playing, backend.readerAlive))
      ensures var p := old(dirplay);
              var q := old(bus.queues)[p.handle];
              !old(stopRequested) ==>
                (q == [] ==> dirplay == p && bus.queues == old(bus.queues)) &&
                (q != [] && OnItem(p.files[p.index], q[0]) == Keep ==> dirplay == p) &&
                (q != [] && OnItem(p.files[p.index], q[0]) == Advance ==> dirplay == Next(p.files, p.index + 1, p.handle)) &&
                (q != [] && OnItem(p.files[p.index], q[0]) == Fail ==> dirplay == Dead) &&
                (q != [] && OnItem(p.files[p.index], q[0]) != Finish ==> bus.queues == old(bus.queues)[p.handle := q[1..]]) &&
                (q != [] && OnItem(p.files[p.index], q[0]) == Finish ==>
                   dirplay == Cleaned(old(bus.queues)[p.handle := q[1..]], old(bus.registry),
                                      StopBlocks(backend.hasProcess, backend.playing, backend.readerAlive)))
      ensures dirplay.Idle? ==> Released()
    {
      if stopRequested {
        Cleanup();
        return;
      }
      var p := dirplay;
      var item := bus.Get(p.handle);
      assert bus.Valid();
      if item.None? {
        return;
      }
      var reaction := OnItem(p.files[p.index], item.value);
      if reaction == Advance {
        dirplay := Next(p.files, p.index + 1, p.handle);
      } else if reaction == Fail {
        dirplay := Dead;
      } else if reaction == Finish {
        Cleanup();
      }
    }

    /**
     * One step of the `_play_dir` thread. Once the stop signal is set, every
     * step brings the thread closer to its end.
     */
    method DirStep()
      requires Valid() && Running(dirplay)
      modifies this`dirplay, this`file, this`dirinfo, store`state, bus`input, bus`queues, bus`registry, backend
      ensures Valid()
      ensures old(stopRequested) ==> Rank(dirplay) < Rank(old(dirplay))
      ensures dirplay.Idle? ==> Released()
    {
      if dirplay.Starting? {
        Begin();
      } else if dirplay.Next? {
        PlayNext();
      } else {
        Poll();
      }
    }

    /**
     * `_dirplay.join()` after the stop signal: the thread runs to its end,
     * unless its clean-up blocks for good; a thread that ends through its
     * clean-up has released its consumer and stopped the backend.
     */
    method JoinThread() returns (finished: bool)
      requires Valid() && stopRequested
      modifies this`dirplay, this`file, this`dirinfo, store`state, bus`input, bus`queues, bus`registry, backend
      ensures Valid() && !Running(dirplay)
      ensures finished <==> !dirplay.Hung?
      ensures !Running(old(dirplay)) ==> dirplay == old(dirplay) && bus.queues == old(bus.queues)
      ensures Running(old(dirplay)) && dirplay.Idle? ==> Released()
    {
      while Running(dirplay)
        invariant Valid()
        invariant !Running(old(dirplay)) ==> dirplay == old(dirplay) && bus.queues == old(bus.queues)
        invariant Running(old(dirplay)) && dirplay.Idle? ==> Released()
        decreases Rank(dirplay)
      {
        DirStep();
      }
      finished := !dirplay.Hung?;
    }

    /**
     * `player_play_dir(start)`: a sequence still running is stopped and
     * joined first; then the listing's files from the first occurrence of
     * `start` (all of them without `start`) are handed to a new thread.
     */
    method PlayDir(start: string) returns (r: Result<(), string>)
      requires Valid()
      modifies this`dirplay, this`stopRequested, this`file, this`dirinfo, store`state, bus`input, bus`queues,
               bus`registry, backend
      ensures Valid()
      ensures old(dirplay).Idle? ==> dirinfo == old(dirinfo) && bus.input == old(bus.input) && bus.queues == old(bus.queues)
      ensures r == Err("blocked") <==> dirplay.Hung?
      ensures !dirplay.Hung? ==>
                (r.Ok? <==> Playlist(dirinfo, start).Ok?) &&
                (r.Err? ==> r.error == Playlist(dirinfo, start).error)
      ensures r.Ok? ==> !stopRequested && dirplay == Starting(Playlist(dirinfo, start).value)
      ensures r.Err? ==> !Running(dirplay)
    {
      if dirplay != Idle {
        stopRequested := true;
        var finished := JoinThread();
        if !finished {
          return Err("blocked");
        }
      }
      r := Launch(start);
    }

    /** The play list is taken from the listing, and a new thread is started on it. */
    method Launch(start: string) returns (r: Result<(), string>)
      requires Valid() && !Running(dirplay)
      modifies this`dirplay, this`stopRequested
      ensures Valid()
      ensures r.Ok? <==> Playlist(dirinfo, start).Ok?
      ensures r.Err? ==>
                r.error == Playlist(dirinfo, start).error &&
                dirplay == old(dirplay) && stopRequested == old(stopRequested)
      ensures r.Ok? ==> !stopRequested && dirplay == Starting(Playlist(dirinfo, start).value)
    {
      var files := Playlist(dirinfo, start);
      if files.Err? {
        return Err(files.error);
      }
      assert bus.Valid() && store.Valid();
      stopRequested := false;
      dirplay := Starting(files.value);
      r := Ok(());
    }

    /**
     * `player_stop`: a running sequence is signalled and joined (its clean-up
     * stops the backend); otherwise the backend is stopped directly. The call
     * never returns when the thread hangs or the backend's `stop` does:
     * `Err("blocked")`.
     */
    method PlayerStop() returns (r: Result<(), string>)
      requires Valid()
      modifies this`dirplay, this`stopRequested, this`file, this`dirinfo, store`state, bus`input, bus`queues,
               bus`registry, backend
      ensures Valid() && !Running(dirplay)
      ensures r.Ok? || r == Err("blocked")
      ensures old(dirplay).Idle? ==>
                dirplay.Idle? && stopRequested == old(stopRequested) && bus.queues == old(bus.queues) &&
                backend.stdin == old(backend.stdin) + (if old(backend.playing) && backend.hasProcess then ["STOP\n"] else []) &&
                (r.Err? <==> StopBlocks(old(backend.hasProcess), old(backend.playing), old(backend.readerAlive)))
      ensures !old(dirplay).Idle? ==> stopRequested && (r.Err? <==> dirplay.Hung?)
      ensures Running(old(dirplay)) && dirplay.Idle? ==> Released()
      ensures !Running(old(dirplay)) && !old(dirplay).Idle? ==> dirplay == old(dirplay) && bus.queues == old(bus.queues)
    {
      if dirplay != Idle {
        stopRequested := true;
        var finished := JoinThread();
        r := if finished then Ok(()) else Err("blocked");
      } else {
        var blocked := backend.Stop(true);
        r := if blocked then Err("blocked") else Ok(());
      }
    }

    /** `player_pause`: the backend pauses its current file. */
    method Pause()
      modifies backend`stdin, backend`awaitingAck
      ensures var sent := backend.url.Some? && backend.url.value != "" && !backend.paused && backend.hasProcess;
              backend.stdin == old(backend.stdin) + (if sent then ["PAUSE\n"] else [])
    {
      backend.Pause();
    }

    /** `player_resume`: the backend resumes a paused file. */
    method Resume()
      modifies backend`stdin, backend`awaitingAck
      ensures var sent := backend.paused && backend.hasProcess;
              backend.stdin == old(backend.stdin) + (if sent then ["PAUSE\n"] else [])
    {
      backend.Resume();
    }

    /** `player_toggle`: the backend toggles pause while it plays. */
    method Toggle()
      modifies backend`stdin, backend`awaitingAck
      ensures var sent := backend.playing && backend.hasProcess;
              backend.stdin == old(backend.stdin) + (if sent then ["PAUSE\n"] else [])
    {
      backend.Toggle();
    }
  }
}
