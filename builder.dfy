/**
 * create_tree: the snapshot tree of a project directory.  The filesystem
 * and the clock are inputs: a top-level listing, each walked directory as a
 * value, the logs directory listing, and integer seconds for `now` and for
 * every modification time.
 */
module TreeBuilder {
  import opened Wrappers
  import opened Strings
  import opened OrderedTree
  import opened Annotation

  /** A file (or any listed entry) with its modification time in seconds. */
  datatype Stat = Stat(name: string, mtime: int)

  /** A directory as os.walk sees it: the non-directory entries, then the subdirectories in listing order. */
  datatype Dir = Dir(name: string, files: seq<Stat>, subdirs: seq<Dir>)

  /** One name of os.listdir() at the scan root: a file, a directory, or neither (a dangling link). */
  datatype TopItem = TopFile(file: Stat) | TopDir(dir: Dir) | TopOther(name: string)

  /** The scan root: its listing, and the listing of "logs" when that is a directory. */
  datatype FileSystem = FileSystem(listing: seq<TopItem>, logDir: Option<seq<Stat>>)

  const IncludedDirs: seq<string> := ["app", "static"]
  const IncludedFiles: seq<string> := ["config.py", "main.py"]
  const ExcludedDirs: seq<string> := ["__pycache__", "migrations", ".upm", ".pythonlibs"]
  const ExcludedFiles: seq<string> := [".gitignore", "poetry.lock", ".png", ".jpg", ".jpeg"]

  /** The recency window: none, or `now - mtime <= recent * 60`. */
  predicate IsRecent(recent: Option<int>, now: int, mtime: int)
  {
    recent.None? || now - mtime <= recent.value * 60
  }

  predicate IsImage(name: string)
  {
    EndsWith(name, ".png") || EndsWith(name, ".jpg") || EndsWith(name, ".jpeg")
  }

  /** The file filter applied inside walked directories. */
  predicate KeepsFile(name: string)
  {
    name !in ExcludedFiles && !IsImage(name)
  }

  predicate IsLogName(name: string)
  {
    StartsWith(name, "log_") && EndsWith(name, ".txt")
  }

  // ---------------------------------------------------------------- walk

  /** One step of os.walk: the directory's path components and its files. */
  datatype Visit = Visit(path: seq<string>, files: seq<Stat>)

  /** os.path.relpath of a walked directory: its components joined by '/'. */
  function PathKey(path: seq<string>): string
  {
    if path == [] then "" else JoinWith(path, '/')
  }

  /**
   * The top-down os.walk of d at path, with excluded subdirectories pruned
   * before they are entered: d first, then each kept subdirectory's walk.
   */
  function Walk(path: seq<string>, d: Dir): seq<Visit>
    decreases d, 1
  {
    [Visit(path, d.files)] + WalkAll(path, d.subdirs)
  }

  function WalkAll(parent: seq<string>, ds: seq<Dir>): seq<Visit>
    decreases ds, 0
  {
    if ds == [] then []
    else
      (if ds[0].name in ExcludedDirs then [] else Walk(parent + [ds[0].name], ds[0]))
        + WalkAll(parent, ds[1..])
  }

  /** The walks of the given subdirectories, one after another, none pruned. */
  function WalkList(parent: seq<string>, ds: seq<Dir>): seq<Visit>
  {
    if ds == [] then [] else Walk(parent + [ds[0].name], ds[0]) + WalkList(parent, ds[1..])
  }

  /** dirs[:] = [d for d in dirs if d not in excluded_dirs] */
  function Pruned(ds: seq<Dir>): seq<Dir>
  {
    if ds == [] then [] else (if ds[0].name in ExcludedDirs then [] else [ds[0]]) + Pruned(ds[1..])
  }

  /** files = [f for f in files if f not in excluded_files and not an image] */
  function KeptFiles(files: seq<Stat>): seq<Stat>
  {
    if files == [] then [] else (if KeepsFile(files[0].name) then [files[0]] else []) + KeptFiles(files[1..])
  }

  /** Walking the pruned list visits exactly what the pruning walk visits. */
  lemma {:induction false} WalkListPruned(parent: seq<string>, ds: seq<Dir>)
    ensures WalkList(parent, Pruned(ds)) == WalkAll(parent, ds)
    decreases |ds|
  {
    if ds != [] {
      WalkListPruned(parent, ds[1..]);
      if ds[0].name !in ExcludedDirs {
        assert Pruned(ds) == [ds[0]] + Pruned(ds[1..]);
        assert Pruned(ds)[0] == ds[0] && Pruned(ds)[1..] == Pruned(ds[1..]);
      } else {
        assert Pruned(ds) == Pruned(ds[1..]);
      }
    }
  }

  /** The visits still pending on an os.walk stack whose top is its last element. */
  function StackVisits(stack: seq<(seq<string>, Dir)>): seq<Visit>
  {
    if stack == [] then []
    else
      var top := stack[|stack| - 1];
      Walk(top.0, top.1) + StackVisits(stack[..|stack| - 1])
  }

  // ------------------------------------------------------- the spec fold

  /** The files of one directory that pass the recency window, as bare entries. */
  function Admitted(files: seq<Stat>, recent: Option<int>, now: int): seq<Entry>
  {
    if files == [] then []
    else
      (if IsRecent(recent, now, files[0].mtime) then [Plain(files[0].name)] else [])
        + Admitted(files[1..], recent, now)
  }

  /** `for file in files: if recent: tree[key].append(file)` */
  function AddFiles(t: Tree, key: string, files: seq<Stat>, recent: Option<int>, now: int): (r: Tree)
    requires HasKey(t, key)
    ensures |r| == |t| && KeysExtend(t, r)
    decreases |files|
  {
    if files == [] then t
    else
      var f := files[0];
      AddFiles(if IsRecent(recent, now, f.mtime) then Append(t, key, Plain(f.name)) else t,
               key, files[1..], recent, now)
  }

  /** The body of the walk loop for one visited directory. */
  function AddVisit(t: Tree, v: Visit, recent: Option<int>, now: int): (r: Tree)
    ensures KeysExtend(t, r)
  {
    var key := PathKey(v.path);
    AddFiles(EnsureKey(t, key), key, KeptFiles(v.files), recent, now)
  }

  function AddVisits(t: Tree, vs: seq<Visit>, recent: Option<int>, now: int): (r: Tree)
    ensures KeysExtend(t, r)
    decreases |vs|
  {
    if vs == [] then t else AddVisits(AddVisit(t, vs[0], recent, now), vs[1..], recent, now)
  }

  /** The walk of a top-level directory. */
  function TopWalk(d: Dir): seq<Visit>
  {
    Walk([d.name], d)
  }

  /** The body of the loop over os.listdir() for one top-level name. */
  function AddItem(t: Tree, item: TopItem, recent: Option<int>, now: int): (r: Tree)
    requires |t| > 0 && t[0].key == RootKey
    ensures KeysExtend(t, r)
  {
    match item
    case TopFile(s) =>
      if s.name in IncludedFiles && IsRecent(recent, now, s.mtime) then Append(t, RootKey, Plain(s.name)) else t
    case TopDir(d) =>
      if d.name in IncludedDirs then AddVisits(t, TopWalk(d), recent, now) else t
    case TopOther(_) => t
  }

  function AddItems(t: Tree, items: seq<TopItem>, recent: Option<int>, now: int): (r: Tree)
    requires |t| > 0 && t[0].key == RootKey
    ensures KeysExtend(t, r)
    decreases |items|
  {
    if items == [] then t else AddItems(AddItem(t, items[0], recent, now), items[1..], recent, now)
  }

  /** [f for f in listing if f.startswith('log_') and f.endswith('.txt')] */
  function LogNamed(logs: seq<Stat>): seq<Stat>
  {
    if logs == [] then [] else (if IsLogName(logs[0].name) then [logs[0]] else []) + LogNamed(logs[1..])
  }

  /** The recency filter of the log files. */
  function RecentOnly(logs: seq<Stat>, recent: Option<int>, now: int): seq<Stat>
  {
    if logs == [] then []
    else
      (if IsRecent(recent, now, logs[0].mtime) then [logs[0]] else []) + RecentOnly(logs[1..], recent, now)
  }

  /** The log files that qualify for the logs bucket. */
  function LogCandidates(logs: seq<Stat>, recent: Option<int>, now: int): seq<Stat>
  {
    if recent.Some? then RecentOnly(LogNamed(logs), recent, now) else LogNamed(logs)
  }

  /** max(log_files, key=mtime): the first file whose mtime is largest. */
  function LatestLog(logs: seq<Stat>): (i: nat)
    requires |logs| > 0
    ensures i < |logs|
    ensures forall j :: 0 <= j < |logs| ==> logs[j].mtime <= logs[i].mtime
    ensures forall j :: 0 <= j < i ==> logs[j].mtime < logs[i].mtime
  {
    if |logs| == 1 then 0
    else
      var m := LatestLog(logs[..|logs| - 1]);
      if logs[|logs| - 1].mtime > logs[m].mtime then |logs| - 1 else m
  }

  /** The logs rule: a "logs" bucket with the newest qualifying log file. */
  function AddLogs(t: Tree, logDir: Option<seq<Stat>>, recent: Option<int>, now: int): (r: Tree)
    ensures KeysExtend(t, r)
  {
    match logDir
    case None => t
    case Some(logs) =>
      var c := LogCandidates(logs, recent, now);
      if c == [] then t
      else Append(EnsureKey(t, LogsKey), LogsKey, Plain(c[LatestLog(c)].name))
  }

  const EmptyTree: Tree := [Bucket(RootKey, [])]

  /** create_tree without the annotation pass. */
  function BuildTree(fs: FileSystem, recent: Option<int>, now: int): Tree
  {
    AddLogs(AddItems(EmptyTree, fs.listing, recent, now), fs.logDir, recent, now)
  }

  /** create_tree(recent, map_functions). */
  function CreateTreeSpec(fs: FileSystem, recent: Option<int>, now: int, mapFunctions: bool,
                          py: PySource, js: JsSource): Result<Tree, string>
  {
    var t := BuildTree(fs, recent, now);
    if mapFunctions then AnnotateBuckets(t, py, js) else Success(t)
  }

  // ---------------------------------------------------------- the code

  lemma {:induction false} AddVisitsConcat(t: Tree, a: seq<Visit>, b: seq<Visit>, recent: Option<int>, now: int)
    ensures AddVisits(t, a + b, recent, now) == AddVisits(AddVisits(t, a, recent, now), b, recent, now)
    decreases |a|
  {
    if a == [] {
      assert a + b == b;
    } else {
      assert (a + b)[0] == a[0] && (a + b)[1..] == a[1..] + b;
      AddVisitsConcat(AddVisit(t, a[0], recent, now), a[1..], b, recent, now);
    }
  }

  /**
   * `for root, dirs, files in os.walk(item)` with the loop body: os.walk's
   * explicit stack of pending directories, top of stack last, each popped
   * directory yielded, pruned in place, and its kept subdirectories pushed
   * in reverse so that the first one is walked next.
   */
  method WalkInto(t0: Tree, top: Dir, recent: Option<int>, now: int) returns (tree: Tree)
    ensures tree == AddVisits(t0, TopWalk(top), recent, now)
  {
    tree := t0;
    var stack: seq<(seq<string>, Dir)> := [([top.name], top)];
    assert stack[..0] == [] && stack[0] == ([top.name], top);
    assert StackVisits(stack) == TopWalk(top) + [];
    assert TopWalk(top) + [] == TopWalk(top);
    while stack != []
      invariant AddVisits(tree, StackVisits(stack), recent, now) == AddVisits(t0, TopWalk(top), recent, now)
      decreases |StackVisits(stack)|
    {
      var path := stack[|stack| - 1].0;
      var d := stack[|stack| - 1].1;
      var rest := stack[..|stack| - 1];
      ghost var v := Visit(path, d.files);
      ghost var below := WalkAll(path, d.subdirs);
      ghost var pending := StackVisits(rest);
      assert StackVisits(stack) == ([v] + below) + pending;
      ConcatAssoc([v], below, pending);
      ghost var goal := AddVisits(tree, [v] + (below + pending), recent, now);
      assert goal == AddVisits(AddVisit(tree, v, recent, now), below + pending, recent, now) by {
        assert ([v] + (below + pending))[0] == v && ([v] + (below + pending))[1..] == below + pending;
      }

      var dirs := Pruned(d.subdirs);
      var key := PathKey(path);
      tree := EnsureKey(tree, key);
      tree := AddFilesInto(tree, key, KeptFiles(d.files), recent, now);
      stack := PushDirs(rest, path, dirs);
      WalkListPruned(path, d.subdirs);
    }
  }

  /** The inner `for name in files` loop of one visited directory. */
  method AddFilesInto(t0: Tree, key: string, files: seq<Stat>, recent: Option<int>, now: int) returns (tree: Tree)
    requires HasKey(t0, key)
    ensures tree == AddFiles(t0, key, files, recent, now)
  {
    tree := t0;
    for j := 0 to |files|
      invariant HasKey(tree, key)
      invariant AddFiles(tree, key, files[j..], recent, now) == AddFiles(t0, key, files, recent, now)
    {
      assert files[j..][0] == files[j] && files[j..][1..] == files[j + 1..];
      if IsRecent(recent, now, files[j].mtime) {
        tree := Append(tree, key, Plain(files[j].name));
      }
    }
    assert files[|files|..] == [];
  }

  /**
   * Pushes the kept subdirectories of path in reverse, so that the first
   * is popped, and walked, first.
   */
  method PushDirs(rest: seq<(seq<string>, Dir)>, path: seq<string>, dirs: seq<Dir>) returns (stack: seq<(seq<string>, Dir)>)
    ensures StackVisits(stack) == WalkList(path, dirs) + StackVisits(rest)
  {
    stack := rest;
    ghost var pending := StackVisits(rest);
    var k := |dirs|;
    while k > 0
      invariant 0 <= k <= |dirs|
      invariant StackVisits(stack) == WalkList(path, dirs[k..]) + pending
    {
      k := k - 1;
      ghost var w := Walk(path + [dirs[k].name], dirs[k]);
      ghost var later := WalkList(path, dirs[k + 1..]);
      assert dirs[k..][0] == dirs[k] && dirs[k..][1..] == dirs[k + 1..];
      assert StackVisits(stack + [(path + [dirs[k].name], dirs[k])]) == w + StackVisits(stack) by {
        assert (stack + [(path + [dirs[k].name], dirs[k])])[..|stack|] == stack;
      }
      ConcatAssoc(w, later, pending);
      stack := stack + [(path + [dirs[k].name], dirs[k])];
    }
    assert dirs[0..] == dirs;
  }

  /** create_tree: the listing loop, the logs rule, then the optional annotation pass. */
  method CreateTree(fs: FileSystem, recent: Option<int>, now: int, mapFunctions: bool,
                    py: PySource, js: JsSource) returns (r: Result<Tree, string>)
    ensures r == CreateTreeSpec(fs, recent, now, mapFunctions, py, js)
  {
    var tree := AddListing(fs.listing, recent, now);
    tree := AddLatestLog(tree, fs.logDir, recent, now);
    if mapFunctions {
      BuildTreeWellFormed(fs, recent, now);
      r := MapFunctionsToTree(tree, py, js);
    } else {
      r := Success(tree);
    }
  }

  /** The loop over os.listdir(): loose files into 'root', included directories walked. */
  method AddListing(listing: seq<TopItem>, recent: Option<int>, now: int) returns (tree: Tree)
    ensures tree == AddItems(EmptyTree, listing, recent, now)
  {
    tree := EmptyTree;
    for i := 0 to |listing|
      invariant |tree| > 0 && tree[0].key == RootKey
      invariant AddItems(tree, listing[i..], recent, now) == AddItems(EmptyTree, listing, recent, now)
    {
      assert listing[i..][0] == listing[i] && listing[i..][1..] == listing[i + 1..];
      match listing[i] {
        case TopFile(s) =>
          if s.name in IncludedFiles && IsRecent(recent, now, s.mtime) {
            assert HasKey(tree, RootKey);
            tree := Append(tree, RootKey, Plain(s.name));
          }
        case TopDir(d) =>
          if d.name in IncludedDirs {
            tree := WalkInto(tree, d, recent, now);
          }
        case TopOther(_) =>
      }
    }
    assert listing[|listing|..] == [];
  }

  /** The logs rule: the newest qualifying log file under the key 'logs'. */
  method AddLatestLog(t: Tree, logDir: Option<seq<Stat>>, recent: Option<int>, now: int) returns (tree: Tree)
    ensures tree == AddLogs(t, logDir, recent, now)
  {
    tree := t;
    match logDir {
      case None =>
      case Some(logs) =>
        var logFiles := LogNamed(logs);
        if recent.Some? {
          logFiles := RecentOnly(logFiles, recent, now);
        }
        if logFiles != [] {
          var latest := logFiles[LatestLog(logFiles)];
          tree := EnsureKey(tree, LogsKey);
          tree := Append(tree, LogsKey, Plain(latest.name));
        }
    }
  }

  // ------------------------------------------------------ well-formedness

  /** Root first, every key once, every entry a bare file name. */
  predicate WellFormed(t: Tree)
  {
    |t| > 0 && t[0].key == RootKey && DistinctKeys(t) && AllPlain(t)
  }

  lemma AppendPlain(t: Tree, k: string, name: string)
    requires WellFormed(t) && HasKey(t, k)
    ensures WellFormed(Append(t, k, Plain(name)))
  {
    var r := Append(t, k, Plain(name));
    forall i, j | 0 <= i < |r| && 0 <= j < |r[i].entries| ensures r[i].entries[j].Plain? {
      if t[i].key == k && j == |t[i].entries| {
        assert r[i].entries[j] == Plain(name);
      } else {
        assert r[i].entries[j] == t[i].entries[j];
      }
    }
  }

  lemma EnsureKeyWellFormed(t: Tree, k: string)
    requires WellFormed(t)
    ensures WellFormed(EnsureKey(t, k))
  {
    var r := EnsureKey(t, k);
    forall i, j | 0 <= i < |r| && 0 <= j < |r[i].entries| ensures r[i].entries[j].Plain? {
      assert i < |t|;
    }
  }

  lemma {:induction false} AddFilesWellFormed(t: Tree, key: string, files: seq<Stat>, recent: Option<int>, now: int)
    requires WellFormed(t) && HasKey(t, key)
    ensures WellFormed(AddFiles(t, key, files, recent, now))
    decreases |files|
  {
    if files != [] {
      var f := files[0];
      if IsRecent(recent, now, f.mtime) {
        AppendPlain(t, key, f.name);
        AddFilesWellFormed(Append(t, key, Plain(f.name)), key, files[1..], recent, now);
      } else {
        AddFilesWellFormed(t, key, files[1..], recent, now);
      }
    }
  }

  lemma {:induction false} AddVisitsWellFormed(t: Tree, vs: seq<Visit>, recent: Option<int>, now: int)
    requires WellFormed(t)
    ensures WellFormed(AddVisits(t, vs, recent, now))
    decreases |vs|
  {
    if vs != [] {
      var key := PathKey(vs[0].path);
      EnsureKeyWellFormed(t, key);
      AddFilesWellFormed(EnsureKey(t, key), key, KeptFiles(vs[0].files), recent, now);
      AddVisitsWellFormed(AddVisit(t, vs[0], recent, now), vs[1..], recent, now);
    }
  }

  lemma {:induction false} AddItemsWellFormed(t: Tree, items: seq<TopItem>, recent: Option<int>, now: int)
    requires WellFormed(t)
    ensures WellFormed(AddItems(t, items, recent, now))
    decreases |items|
  {
    if items != [] {
      match items[0] {
        case TopFile(s) =>
          if s.name in IncludedFiles && IsRecent(recent, now, s.mtime) {
            AppendPlain(t, RootKey, s.name);
          }
        case TopDir(d) =>
          if d.name in IncludedDirs {
            AddVisitsWellFormed(t, TopWalk(d), recent, now);
          }
        case TopOther(_) =>
      }
      AddItemsWellFormed(AddItem(t, items[0], recent, now), items[1..], recent, now);
    }
  }

  /** The tree create_tree builds has 'root' first, distinct keys and only bare names. */
  lemma BuildTreeWellFormed(fs: FileSystem, recent: Option<int>, now: int)
    ensures WellFormed(BuildTree(fs, recent, now))
  {
    var t := AddItems(EmptyTree, fs.listing, recent, now);
    AddItemsWellFormed(EmptyTree, fs.listing, recent, now);
    if fs.logDir.Some? {
      var c := LogCandidates(fs.logDir.value, recent, now);
      if c != [] {
        EnsureKeyWellFormed(t, LogsKey);
        AppendPlain(EnsureKey(t, LogsKey), LogsKey, c[LatestLog(c)].name);
      }
    }
  }

  // ------------------------------------------------------ bucket contents

  /** The entries a sequence of visits contributes to bucket k. */
  function Collect(vs: seq<Visit>, k: string, recent: Option<int>, now: int): seq<Entry>
  {
    if vs == [] then []
    else
      (if PathKey(vs[0].path) == k then Admitted(KeptFiles(vs[0].files), recent, now) else [])
        + Collect(vs[1..], k, recent, now)
  }

  /** The top-level files that reach the root bucket, in listing order. */
  function RootEntries(items: seq<TopItem>, recent: Option<int>, now: int): seq<Entry>
  {
    if items == [] then [] else ItemFile(items[0], recent, now) + RootEntries(items[1..], recent, now)
  }

  function ItemFile(item: TopItem, recent: Option<int>, now: int): seq<Entry>
  {
    if item.TopFile? && item.file.name in IncludedFiles && IsRecent(recent, now, item.file.mtime)
    then [Plain(item.file.name)] else []
  }

  function ItemWalk(item: TopItem): seq<Visit>
  {
    if item.TopDir? && item.dir.name in IncludedDirs then TopWalk(item.dir) else []
  }

  /** The visits of the walks of every included top-level directory, in listing order. */
  function Visits(items: seq<TopItem>): seq<Visit>
  {
    if items == [] then [] else ItemWalk(items[0]) + Visits(items[1..])
  }

  /** Some visit of vs is of the directory whose key is k. */
  predicate Walked(vs: seq<Visit>, k: string)
  {
    exists v :: v in vs && PathKey(v.path) == k
  }

  /** The qualifying log files, or none when there is no logs directory. */
  function LogChoices(fs: FileSystem, recent: Option<int>, now: int): seq<Stat>
  {
    if fs.logDir.Some? then LogCandidates(fs.logDir.value, recent, now) else []
  }

  lemma {:induction false} AddFilesLookup(t: Tree, key: string, files: seq<Stat>, recent: Option<int>, now: int, k: string)
    requires HasKey(t, key)
    ensures Lookup(AddFiles(t, key, files, recent, now), k)
         == Lookup(t, k) + (if k == key then Admitted(files, recent, now) else [])
    decreases |files|
  {
    if files == [] {
      assert Lookup(t, k) + [] == Lookup(t, k);
    } else {
      var f := files[0];
      var t1 := if IsRecent(recent, now, f.mtime) then Append(t, key, Plain(f.name)) else t;
      AddFilesLookup(t1, key, files[1..], recent, now, k);
      var head := if IsRecent(recent, now, f.mtime) then [Plain(f.name)] else [];
      if k == key {
        assert Lookup(t1, k) == Lookup(t, k) + head;
        ConcatAssoc(Lookup(t, k), head, Admitted(files[1..], recent, now));
      } else {
        assert Lookup(t1, k) == Lookup(t, k);
      }
    }
  }

  lemma {:induction false} AddVisitsLookup(t: Tree, vs: seq<Visit>, recent: Option<int>, now: int, k: string)
    ensures Lookup(AddVisits(t, vs, recent, now), k) == Lookup(t, k) + Collect(vs, k, recent, now)
    decreases |vs|
  {
    if vs == [] {
      assert Lookup(t, k) + [] == Lookup(t, k);
    } else {
      var key := PathKey(vs[0].path);
      var t1 := AddVisit(t, vs[0], recent, now);
      var head := if key == k then Admitted(KeptFiles(vs[0].files), recent, now) else [];
      AddFilesLookup(EnsureKey(t, key), key, KeptFiles(vs[0].files), recent, now, k);
      assert Lookup(t1, k) == Lookup(t, k) + head;
      AddVisitsLookup(t1, vs[1..], recent, now, k);
      ConcatAssoc(Lookup(t, k), head, Collect(vs[1..], k, recent, now));
    }
  }

  lemma {:induction false} AddVisitsKeys(t: Tree, vs: seq<Visit>, recent: Option<int>, now: int, k: string)
    ensures HasKey(AddVisits(t, vs, recent, now), k) <==> HasKey(t, k) || Walked(vs, k)
    decreases |vs|
  {
    if vs != [] {
      var t1 := AddVisit(t, vs[0], recent, now);
      AddVisitKeys(t, vs[0], recent, now, k);
      AddVisitsKeys(t1, vs[1..], recent, now, k);
      WalkedCons(vs, k);
    }
  }

  lemma AddVisitKeys(t: Tree, v: Visit, recent: Option<int>, now: int, k: string)
    ensures HasKey(AddVisit(t, v, recent, now), k) <==> HasKey(t, k) || PathKey(v.path) == k
  {
    var key := PathKey(v.path);
    AddFilesKeys(EnsureKey(t, key), key, KeptFiles(v.files), recent, now, k);
  }

  lemma WalkedCons(vs: seq<Visit>, k: string)
    requires vs != []
    ensures Walked(vs, k) <==> PathKey(vs[0].path) == k || Walked(vs[1..], k)
  {
    assert vs == [vs[0]] + vs[1..];
    if Walked(vs, k) {
      var v :| v in vs && PathKey(v.path) == k;
      if v != vs[0] { assert v in vs[1..]; }
    }
    if Walked(vs[1..], k) {
      var v :| v in vs[1..] && PathKey(v.path) == k;
      assert v in vs;
    }
  }

  lemma {:induction false} CollectConcat(a: seq<Visit>, b: seq<Visit>, k: string, recent: Option<int>, now: int)
    ensures Collect(a + b, k, recent, now) == Collect(a, k, recent, now) + Collect(b, k, recent, now)
    decreases |a|
  {
    if a == [] {
      assert a + b == b;
    } else {
      assert (a + b)[0] == a[0] && (a + b)[1..] == a[1..] + b;
      CollectConcat(a[1..], b, k, recent, now);
      var head := if PathKey(a[0].path) == k then Admitted(KeptFiles(a[0].files), recent, now) else [];
      ConcatAssoc(head, Collect(a[1..], k, recent, now), Collect(b, k, recent, now));
    }
  }

  lemma {:induction false} CollectAbsent(vs: seq<Visit>, k: string, recent: Option<int>, now: int)
    requires !Walked(vs, k)
    ensures Collect(vs, k, recent, now) == []
    decreases |vs|
  {
    if vs != [] {
      assert vs[0] in vs;
      assert !Walked(vs[1..], k) by {
        forall v | v in vs[1..] ensures PathKey(v.path) != k {
          assert v in vs;
        }
      }
      CollectAbsent(vs[1..], k, recent, now);
    }
  }

  /** Every directory a walk from p visits lies under p's first component. */
  lemma {:induction false} WalkHead(p: seq<string>, d: Dir)
    requires p != []
    ensures forall v :: v in Walk(p, d) ==> v.path != [] && v.path[0] == p[0]
    decreases d, 1
  {
    WalkAllHead(p, d.subdirs);
  }

  lemma {:induction false} WalkAllHead(p: seq<string>, ds: seq<Dir>)
    requires p != []
    ensures forall v :: v in WalkAll(p, ds) ==> v.path != [] && v.path[0] == p[0]
    decreases ds, 0
  {
    if ds != [] {
      if ds[0].name !in ExcludedDirs {
        WalkHead(p + [ds[0].name], ds[0]);
      }
      WalkAllHead(p, ds[1..]);
    }
  }

  /** The walk of an included directory never produces the keys 'root' or 'logs'. */
  lemma TopWalkKeys(d: Dir)
    requires d.name in IncludedDirs
    ensures !Walked(TopWalk(d), RootKey) && !Walked(TopWalk(d), LogsKey)
  {
    WalkHead([d.name], d);
    forall v | v in TopWalk(d) ensures PathKey(v.path) != RootKey && PathKey(v.path) != LogsKey {
      JoinStartsWithFirst(v.path, '/');
      var key := PathKey(v.path);
      assert key[0] == d.name[0];
    }
  }

  lemma {:induction false} VisitsKeys(items: seq<TopItem>)
    ensures !Walked(Visits(items), RootKey) && !Walked(Visits(items), LogsKey)
    decreases |items|
  {
    if items != [] {
      VisitsKeys(items[1..]);
      var head := ItemWalk(items[0]);
      if items[0].TopDir? && items[0].dir.name in IncludedDirs {
        TopWalkKeys(items[0].dir);
      }
      forall v | v in Visits(items) ensures PathKey(v.path) != RootKey && PathKey(v.path) != LogsKey {
        assert v in head || v in Visits(items[1..]);
      }
    }
  }

  lemma AddFilesKeys(t: Tree, key: string, files: seq<Stat>, recent: Option<int>, now: int, k: string)
    requires HasKey(t, key)
    ensures HasKey(AddFiles(t, key, files, recent, now), k) <==> HasKey(t, k)
  {
    var r := AddFiles(t, key, files, recent, now);
    if HasKey(t, k) {
      var i :| 0 <= i < |t| && t[i].key == k;
      assert r[i].key == k;
    }
    if HasKey(r, k) {
      var i :| 0 <= i < |r| && r[i].key == k;
      assert t[i].key == k;
    }
  }

  lemma AddItemLookup(t: Tree, item: TopItem, recent: Option<int>, now: int, k: string)
    requires |t| > 0 && t[0].key == RootKey
    ensures Lookup(AddItem(t, item, recent, now), k)
         == Lookup(t, k) + (if k == RootKey then ItemFile(item, recent, now) else Collect(ItemWalk(item), k, recent, now))
  {
    var walk := ItemWalk(item);
    if item.TopDir? && item.dir.name in IncludedDirs {
      AddVisitsLookup(t, walk, recent, now, k);
      TopWalkKeys(item.dir);
      CollectAbsent(walk, RootKey, recent, now);
    } else {
      assert Lookup(t, k) + [] == Lookup(t, k);
    }
  }

  lemma {:induction false} AddItemsLookup(t: Tree, items: seq<TopItem>, recent: Option<int>, now: int, k: string)
    requires |t| > 0 && t[0].key == RootKey
    ensures Lookup(AddItems(t, items, recent, now), k)
         == Lookup(t, k) + (if k == RootKey then RootEntries(items, recent, now) else Collect(Visits(items), k, recent, now))
    decreases |items|
  {
    if items == [] {
      assert Lookup(t, k) + [] == Lookup(t, k);
    } else {
      var t1 := AddItem(t, items[0], recent, now);
      var rest := items[1..];
      AddItemLookup(t, items[0], recent, now, k);
      AddItemsLookup(t1, rest, recent, now, k);
      if k == RootKey {
        ConcatAssoc(Lookup(t, k), ItemFile(items[0], recent, now), RootEntries(rest, recent, now));
      } else {
        CollectConcat(ItemWalk(items[0]), Visits(rest), k, recent, now);
        ConcatAssoc(Lookup(t, k), Collect(ItemWalk(items[0]), k, recent, now), Collect(Visits(rest), k, recent, now));
      }
    }
  }

  lemma AddItemKeys(t: Tree, item: TopItem, recent: Option<int>, now: int, k: string)
    requires |t| > 0 && t[0].key == RootKey
    ensures HasKey(AddItem(t, item, recent, now), k) <==> HasKey(t, k) || Walked(ItemWalk(item), k)
  {
    if item.TopDir? && item.dir.name in IncludedDirs {
      AddVisitsKeys(t, ItemWalk(item), recent, now, k);
    }
  }

  lemma {:induction false} AddItemsKeys(t: Tree, items: seq<TopItem>, recent: Option<int>, now: int, k: string)
    requires |t| > 0 && t[0].key == RootKey
    ensures HasKey(AddItems(t, items, recent, now), k) <==> HasKey(t, k) || Walked(Visits(items), k)
    decreases |items|
  {
    if items != [] {
      var t1 := AddItem(t, items[0], recent, now);
      var rest := items[1..];
      AddItemKeys(t, items[0], recent, now, k);
      AddItemsKeys(t1, rest, recent, now, k);
      var walk := ItemWalk(items[0]);
      assert Walked(Visits(items), k) <==> Walked(walk, k) || Walked(Visits(rest), k) by {
        forall v ensures v in Visits(items) <==> v in walk || v in Visits(rest) {
        }
      }
    }
  }

  lemma AddLogsLookup(t: Tree, fs: FileSystem, recent: Option<int>, now: int, k: string)
    ensures var c := LogChoices(fs, recent, now);
            (Lookup(AddLogs(t, fs.logDir, recent, now), k)
             == Lookup(t, k) + (if k == LogsKey && c != [] then [Plain(c[LatestLog(c)].name)] else []))
    ensures var c := LogChoices(fs, recent, now);
            HasKey(AddLogs(t, fs.logDir, recent, now), k) <==> HasKey(t, k) || (k == LogsKey && c != [])
  {
    assert Lookup(t, k) + [] == Lookup(t, k);
  }

  /** The root bucket holds exactly the included, recent top-level files, in listing order. */
  lemma RootBucket(fs: FileSystem, recent: Option<int>, now: int)
    ensures Lookup(BuildTree(fs, recent, now), RootKey) == RootEntries(fs.listing, recent, now)
  {
    AddItemsLookup(EmptyTree, fs.listing, recent, now, RootKey);
    AddLogsLookup(AddItems(EmptyTree, fs.listing, recent, now), fs, recent, now, RootKey);
  }

  /** A walked directory's bucket holds exactly its kept, recent files. */
  lemma WalkedBucket(fs: FileSystem, recent: Option<int>, now: int, k: string)
    requires k != RootKey && k != LogsKey
    ensures Lookup(BuildTree(fs, recent, now), k) == Collect(Visits(fs.listing), k, recent, now)
  {
    AddItemsLookup(EmptyTree, fs.listing, recent, now, k);
    AddLogsLookup(AddItems(EmptyTree, fs.listing, recent, now), fs, recent, now, k);
  }

  /** The logs bucket exists exactly when some log file qualifies, and holds only the newest one. */
  lemma LogsBucket(fs: FileSystem, recent: Option<int>, now: int)
    ensures var c := LogChoices(fs, recent, now);
            var t := BuildTree(fs, recent, now);
            && (HasKey(t, LogsKey) <==> c != [])
            && Lookup(t, LogsKey) == (if c == [] then [] else [Plain(c[LatestLog(c)].name)])
  {
    var t := AddItems(EmptyTree, fs.listing, recent, now);
    AddItemsLookup(EmptyTree, fs.listing, recent, now, LogsKey);
    AddItemsKeys(EmptyTree, fs.listing, recent, now, LogsKey);
    AddLogsLookup(t, fs, recent, now, LogsKey);
    VisitsKeys(fs.listing);
    CollectAbsent(Visits(fs.listing), LogsKey, recent, now);
    assert !HasKey(EmptyTree, LogsKey);
  }

  /**
   * The keys of the tree: 'root', the key of every directory the walk
   * visits (even when none of its files qualify), and 'logs' when a log
   * file qualifies; nothing else.
   */
  lemma BuildTreeKeys(fs: FileSystem, recent: Option<int>, now: int, k: string)
    ensures HasKey(BuildTree(fs, recent, now), k)
        <==> k == RootKey || Walked(Visits(fs.listing), k) || (k == LogsKey && LogChoices(fs, recent, now) != [])
  {
    var t := AddItems(EmptyTree, fs.listing, recent, now);
    AddItemsKeys(EmptyTree, fs.listing, recent, now, k);
    AddLogsLookup(t, fs, recent, now, k);
    assert HasKey(EmptyTree, k) <==> k == RootKey by {
      assert EmptyTree[0].key == RootKey;
    }
  }

  // ----------------------------------------------------------- key order

  /** The keys of the visited directories, one per visit, in visiting order. */
  function PathKeys(vs: seq<Visit>): seq<string>
  {
    if vs == [] then [] else [PathKey(vs[0].path)] + PathKeys(vs[1..])
  }

  /** Each element of xs that no earlier element equals, in order. */
  function Firsts(xs: seq<string>): seq<string>
  {
    if xs == [] then []
    else
      var init := xs[..|xs| - 1];
      Firsts(init) + (if xs[|xs| - 1] in init then [] else [xs[|xs| - 1]])
  }

  /** `if k not in tree: tree[k] = []` for each key of xs in turn, on the key order alone. */
  function InsertAll(ks: seq<string>, xs: seq<string>): seq<string>
    decreases |xs|
  {
    if xs == [] then ks else InsertAll(Insert(ks, xs[0]), xs[1..])
  }

  /** Firsts keeps every element once: the same elements, no repeats. */
  lemma {:induction false} FirstsSpec(xs: seq<string>)
    ensures forall x :: x in Firsts(xs) <==> x in xs
    ensures forall i, j :: 0 <= i < j < |Firsts(xs)| ==> Firsts(xs)[i] != Firsts(xs)[j]
    decreases |xs|
  {
    if xs != [] {
      var init := xs[..|xs| - 1];
      FirstsSpec(init);
      assert xs == init + [xs[|xs| - 1]];
    }
  }

  lemma {:induction false} InsertAllMember(ks: seq<string>, xs: seq<string>, x: string)
    ensures x in InsertAll(ks, xs) <==> x in ks || x in xs
    decreases |xs|
  {
    if xs != [] {
      InsertAllMember(Insert(ks, xs[0]), xs[1..], x);
      assert xs == [xs[0]] + xs[1..];
    }
  }

  lemma {:induction false} InsertAllConcat(ks: seq<string>, a: seq<string>, b: seq<string>)
    ensures InsertAll(ks, a + b) == InsertAll(InsertAll(ks, a), b)
    decreases |a|
  {
    if a == [] {
      assert a + b == b;
    } else {
      assert (a + b)[0] == a[0] && (a + b)[1..] == a[1..] + b;
      InsertAllConcat(Insert(ks, a[0]), a[1..], b);
    }
  }

  /** Keys that xs never mentions stay in front. */
  lemma {:induction false} InsertAllPrefix(p: seq<string>, ks: seq<string>, xs: seq<string>)
    requires forall i :: 0 <= i < |xs| ==> xs[i] !in p
    ensures InsertAll(p + ks, xs) == p + InsertAll(ks, xs)
    decreases |xs|
  {
    if xs != [] {
      assert xs[0] !in p;
      assert Insert(p + ks, xs[0]) == p + Insert(ks, xs[0]);
      InsertAllPrefix(p, Insert(ks, xs[0]), xs[1..]);
    }
  }

  /** Inserting into an empty key order keeps exactly the first occurrences. */
  lemma {:induction false} InsertAllFirsts(xs: seq<string>)
    ensures InsertAll([], xs) == Firsts(xs)
    decreases |xs|
  {
    if xs != [] {
      var init := xs[..|xs| - 1];
      var x := xs[|xs| - 1];
      InsertAllFirsts(init);
      assert xs == init + [x];
      InsertAllConcat([], init, [x]);
      InsertAllMember([], init, x);
    }
  }

  lemma {:induction false} PathKeysConcat(a: seq<Visit>, b: seq<Visit>)
    ensures PathKeys(a + b) == PathKeys(a) + PathKeys(b)
    decreases |a|
  {
    if a == [] {
      assert a + b == b;
    } else {
      assert (a + b)[0] == a[0] && (a + b)[1..] == a[1..] + b;
      PathKeysConcat(a[1..], b);
    }
  }

  lemma {:induction false} PathKeysWalked(vs: seq<Visit>, k: string)
    ensures k in PathKeys(vs) <==> Walked(vs, k)
    decreases |vs|
  {
    if vs != [] {
      PathKeysWalked(vs[1..], k);
      WalkedCons(vs, k);
    }
  }

  lemma AddVisitOrder(t: Tree, v: Visit, recent: Option<int>, now: int)
    ensures KeysOf(AddVisit(t, v, recent, now)) == Insert(KeysOf(t), PathKey(v.path))
  {
    var key := PathKey(v.path);
    EnsureKeyOrder(t, key);
    SameKeys(EnsureKey(t, key), AddVisit(t, v, recent, now));
  }

  lemma {:induction false} AddVisitsOrder(t: Tree, vs: seq<Visit>, recent: Option<int>, now: int)
    ensures KeysOf(AddVisits(t, vs, recent, now)) == InsertAll(KeysOf(t), PathKeys(vs))
    decreases |vs|
  {
    if vs != [] {
      AddVisitOrder(t, vs[0], recent, now);
      AddVisitsOrder(AddVisit(t, vs[0], recent, now), vs[1..], recent, now);
    }
  }

  lemma AddItemOrder(t: Tree, item: TopItem, recent: Option<int>, now: int)
    requires |t| > 0 && t[0].key == RootKey
    ensures KeysOf(AddItem(t, item, recent, now)) == InsertAll(KeysOf(t), PathKeys(ItemWalk(item)))
  {
    if item.TopDir? && item.dir.name in IncludedDirs {
      AddVisitsOrder(t, TopWalk(item.dir), recent, now);
    } else {
      SameKeys(t, AddItem(t, item, recent, now));
    }
  }

  lemma {:induction false} AddItemsOrder(t: Tree, items: seq<TopItem>, recent: Option<int>, now: int)
    requires |t| > 0 && t[0].key == RootKey
    ensures KeysOf(AddItems(t, items, recent, now)) == InsertAll(KeysOf(t), PathKeys(Visits(items)))
    decreases |items|
  {
    if items != [] {
      var walk := ItemWalk(items[0]);
      var rest := Visits(items[1..]);
      AddItemOrder(t, items[0], recent, now);
      AddItemsOrder(AddItem(t, items[0], recent, now), items[1..], recent, now);
      PathKeysConcat(walk, rest);
      InsertAllConcat(KeysOf(t), PathKeys(walk), PathKeys(rest));
    }
  }

  /**
   * The order of the tree's keys, which the drawing and the export follow:
   * 'root', then the key of each directory the walk visits at its first
   * visit, in walk order, then 'logs' when a log file qualifies.
   */
  lemma BuildTreeKeyOrder(fs: FileSystem, recent: Option<int>, now: int)
    ensures KeysOf(BuildTree(fs, recent, now))
         == [RootKey] + Firsts(PathKeys(Visits(fs.listing)))
              + (if LogChoices(fs, recent, now) != [] then [LogsKey] else [])
  {
    var xs := PathKeys(Visits(fs.listing));
    var t := AddItems(EmptyTree, fs.listing, recent, now);
    AddItemsOrder(EmptyTree, fs.listing, recent, now);
    assert KeysOf(EmptyTree) == [RootKey];
    VisitsKeys(fs.listing);
    PathKeysWalked(Visits(fs.listing), RootKey);
    PathKeysWalked(Visits(fs.listing), LogsKey);
    forall i | 0 <= i < |xs| ensures xs[i] !in [RootKey] {
      assert xs[i] in xs;
    }
    InsertAllPrefix([RootKey], [], xs);
    assert [RootKey] + [] == [RootKey];
    InsertAllFirsts(xs);
    assert KeysOf(t) == [RootKey] + Firsts(xs);
    var c := LogChoices(fs, recent, now);
    if c != [] {
      var e := EnsureKey(t, LogsKey);
      EnsureKeyOrder(t, LogsKey);
      SameKeys(e, Append(e, LogsKey, Plain(c[LatestLog(c)].name)));
      InsertAllMember([RootKey], xs, LogsKey);
      assert LogsKey != RootKey by {
        assert LogsKey[0] != RootKey[0];
      }
    }
  }

  // ----------------------------------------------------------- admission

  lemma {:induction false} KeptFilesMember(files: seq<Stat>, s: Stat)
    ensures s in KeptFiles(files) <==> s in files && KeepsFile(s.name)
    decreases |files|
  {
    if files != [] {
      KeptFilesMember(files[1..], s);
      assert files == [files[0]] + files[1..];
    }
  }

  lemma {:induction false} AdmittedMember(files: seq<Stat>, recent: Option<int>, now: int, e: Entry)
    ensures e in Admitted(files, recent, now)
        <==> exists s :: s in files && IsRecent(recent, now, s.mtime) && e == Plain(s.name)
    decreases |files|
  {
    if files != [] {
      AdmittedMember(files[1..], recent, now, e);
      assert files == [files[0]] + files[1..];
      if e in Admitted(files[1..], recent, now) {
        var s :| s in files[1..] && IsRecent(recent, now, s.mtime) && e == Plain(s.name);
        assert s in files;
      }
    }
  }

  /** An entry of a walked bucket is a kept, recent file of a directory with that key. */
  lemma {:induction false} CollectMember(vs: seq<Visit>, k: string, recent: Option<int>, now: int, e: Entry)
    ensures e in Collect(vs, k, recent, now)
        <==> exists v, s :: v in vs && PathKey(v.path) == k && s in v.files
                           && KeepsFile(s.name) && IsRecent(recent, now, s.mtime) && e == Plain(s.name)
    decreases |vs|
  {
    if vs != [] {
      CollectMember(vs[1..], k, recent, now, e);
      assert vs == [vs[0]] + vs[1..];
      var v0 := vs[0];
      if PathKey(v0.path) == k {
        AdmittedMember(KeptFiles(v0.files), recent, now, e);
        forall s ensures s in KeptFiles(v0.files) <==> s in v0.files && KeepsFile(s.name) {
          KeptFilesMember(v0.files, s);
        }
      }
      if e in Collect(vs[1..], k, recent, now) {
        var v, s :| v in vs[1..] && PathKey(v.path) == k && s in v.files
                    && KeepsFile(s.name) && IsRecent(recent, now, s.mtime) && e == Plain(s.name);
        assert v in vs;
      }
    }
  }

  /** An entry of the root bucket is an included, recent top-level file. */
  lemma {:induction false} RootEntriesMember(items: seq<TopItem>, recent: Option<int>, now: int, e: Entry)
    ensures e in RootEntries(items, recent, now)
        <==> exists s :: TopFile(s) in items && s.name in IncludedFiles && IsRecent(recent, now, s.mtime) && e == Plain(s.name)
    decreases |items|
  {
    if items != [] {
      RootEntriesMember(items[1..], recent, now, e);
      assert items == [items[0]] + items[1..];
      if e in RootEntries(items[1..], recent, now) {
        var s :| TopFile(s) in items[1..] && s.name in IncludedFiles && IsRecent(recent, now, s.mtime) && e == Plain(s.name);
        assert TopFile(s) in items;
      }
    }
  }

  lemma {:induction false} LogNamedMember(logs: seq<Stat>, s: Stat)
    ensures s in LogNamed(logs) <==> s in logs && IsLogName(s.name)
    decreases |logs|
  {
    if logs != [] {
      LogNamedMember(logs[1..], s);
      assert logs == [logs[0]] + logs[1..];
    }
  }

  lemma {:induction false} RecentOnlyMember(logs: seq<Stat>, recent: Option<int>, now: int, s: Stat)
    ensures s in RecentOnly(logs, recent, now) <==> s in logs && IsRecent(recent, now, s.mtime)
    decreases |logs|
  {
    if logs != [] {
      RecentOnlyMember(logs[1..], recent, now, s);
      assert logs == [logs[0]] + logs[1..];
    }
  }

  /** A qualifying log file is one named log_*.txt within the recency window. */
  lemma LogCandidatesMember(logs: seq<Stat>, recent: Option<int>, now: int, s: Stat)
    ensures s in LogCandidates(logs, recent, now) <==> s in logs && IsLogName(s.name) && IsRecent(recent, now, s.mtime)
  {
    LogNamedMember(logs, s);
    if recent.Some? {
      RecentOnlyMember(LogNamed(logs), recent, now, s);
    }
  }

  // ------------------------------------------------------------- pruning

  /** Every directory name is a single path component. */
  predicate NamesOk(d: Dir)
  {
    forall i :: 0 <= i < |d.subdirs| ==> '/' !in d.subdirs[i].name && NamesOk(d.subdirs[i])
  }

  predicate GoodComponents(p: seq<string>)
  {
    forall i :: 0 <= i < |p| ==> '/' !in p[i] && p[i] !in ExcludedDirs
  }

  lemma {:induction false} WalkComponents(p: seq<string>, d: Dir)
    requires GoodComponents(p) && NamesOk(d)
    ensures forall v :: v in Walk(p, d) ==> GoodComponents(v.path)
    decreases d, 1
  {
    WalkAllComponents(p, d.subdirs);
  }

  lemma {:induction false} WalkAllComponents(p: seq<string>, ds: seq<Dir>)
    requires GoodComponents(p)
    requires forall i :: 0 <= i < |ds| ==> '/' !in ds[i].name && NamesOk(ds[i])
    ensures forall v :: v in WalkAll(p, ds) ==> GoodComponents(v.path)
    decreases ds, 0
  {
    if ds != [] {
      if ds[0].name !in ExcludedDirs {
        WalkComponents(p + [ds[0].name], ds[0]);
      }
      WalkAllComponents(p, ds[1..]);
    }
  }

  lemma {:induction false} VisitsComponents(items: seq<TopItem>)
    requires forall i :: 0 <= i < |items| && items[i].TopDir? ==> NamesOk(items[i].dir)
    ensures forall v :: v in Visits(items) ==> v.path != [] && GoodComponents(v.path)
    decreases |items|
  {
    if items != [] {
      VisitsComponents(items[1..]);
      if items[0].TopDir? && items[0].dir.name in IncludedDirs {
        WalkComponents([items[0].dir.name], items[0].dir);
        WalkHead([items[0].dir.name], items[0].dir);
      }
      forall v | v in Visits(items) ensures v.path != [] && GoodComponents(v.path) {
        assert v in ItemWalk(items[0]) || v in Visits(items[1..]);
      }
    }
  }

  /**
   * Pruning happens before descent: when directory names are single path
   * components, no key of the tree has an excluded directory among its
   * '/'-separated components.
   */
  lemma KeyComponents(items: seq<TopItem>, k: string)
    requires forall i :: 0 <= i < |items| && items[i].TopDir? ==> NamesOk(items[i].dir)
    requires k == RootKey || k == LogsKey || Walked(Visits(items), k)
    ensures forall c :: c in SplitOn(k, '/') ==> c !in ExcludedDirs
  {
    if k == RootKey || k == LogsKey {
      SplitWithout(k, '/');
    } else {
      VisitsComponents(items);
      var v :| v in Visits(items) && PathKey(v.path) == k;
      PathKeyComponents(v.path);
    }
  }

  /** A key built from good components splits back into them. */
  lemma PathKeyComponents(p: seq<string>)
    requires p != [] && GoodComponents(p)
    ensures forall c :: c in SplitOn(PathKey(p), '/') ==> c !in ExcludedDirs
  {
    SplitJoin(p, '/');
    forall c | c in SplitOn(PathKey(p), '/') ensures c !in ExcludedDirs {
      var j :| 0 <= j < |p| && p[j] == c;
    }
  }

  lemma NoExcludedComponent(fs: FileSystem, recent: Option<int>, now: int)
    requires forall i :: 0 <= i < |fs.listing| && fs.listing[i].TopDir? ==> NamesOk(fs.listing[i].dir)
    ensures var t := BuildTree(fs, recent, now);
            forall i, c :: 0 <= i < |t| && c in SplitOn(t[i].key, '/') ==> c !in ExcludedDirs
  {
    var t := BuildTree(fs, recent, now);
    forall i, c | 0 <= i < |t| && c in SplitOn(t[i].key, '/') ensures c !in ExcludedDirs {
      assert HasKey(t, t[i].key);
      BuildTreeKeys(fs, recent, now, t[i].key);
      KeyComponents(fs.listing, t[i].key);
    }
  }
}
