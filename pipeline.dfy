/**
 * main: name the output file, select the sections and file types, build
 * the tree, and write the snapshot text.  The command-line arguments are a
 * value; the filesystem views, the clock and the two timestamps are
 * inputs.  The result is the output file's name and text, or the path
 * whose annotation failed.
 */
module Snapshot {
  import opened Wrappers
  import opened OrderedTree
  import opened Annotation
  import opened TreeBuilder
  import opened Export
  import opened Options

  /** The parsed command line: --output, --export-options, --recent, --map-functions. */
  datatype Args = Args(output: string, exportOptions: string, recent: Option<int>, mapFunctions: bool)

  /** Everything the run reads from outside. */
  datatype World = World(
    fs: FileSystem, py: PySource, js: JsSource, isFile: FileCheck, read: Reader,
    now: int, nameStamp: string, exportStamp: string)

  /** The output file's name and its text, or the failing path. */
  function RunSpec(args: Args, w: World): Result<(string, string), string>
  {
    var name := OutputFileName(args.output, w.nameStamp);
    match CreateTreeSpec(w.fs, args.recent, w.now, args.mapFunctions, w.py, w.js)
    case Failure(path) => Failure(path)
    case Success(t) => Success((name, ExportText(t, FileTypes(args.exportOptions), w.exportStamp, w.isFile, w.read)))
  }

  method Run(args: Args, w: World) returns (r: Result<(string, string), string>)
    ensures r == RunSpec(args, w)
  {
    var outputFile := OutputFileName(args.output, w.nameStamp);
    var fileTypes := BuildFileTypes(args.exportOptions);
    assert fileTypes == FileTypes(args.exportOptions) by {
      forall x ensures x in fileTypes <==> x in FileTypes(args.exportOptions) {
        FileTypesMember(args.exportOptions, x);
      }
    }
    var tree := CreateTree(w.fs, args.recent, w.now, args.mapFunctions, w.py, w.js);
    match tree {
      case Failure(path) =>
        r := Failure(path);
      case Success(t) =>
        var text := ExportFiles(t, fileTypes, w.exportStamp, w.isFile, w.read);
        r := Success((outputFile, text));
    }
  }

  /**
   * A run fails only with --map-functions, exactly when some ".py" or
   * ".js" entry of the tree cannot be read or parsed, and then with the
   * path of such an entry.
   */
  lemma RunFails(args: Args, w: World)
    ensures var t := BuildTree(w.fs, args.recent, w.now);
      && (RunSpec(args, w).Failure? <==>
           args.mapFunctions
           && exists i, j :: 0 <= i < |t| && 0 <= j < |t[i].entries| && Unreadable(t[i].key, t[i].entries[j].name, w.py, w.js))
      && (RunSpec(args, w).Failure? ==>
           exists i, j :: 0 <= i < |t| && 0 <= j < |t[i].entries|
             && RunSpec(args, w).error == FilePath(t[i].key, t[i].entries[j].name))
  {
    var t := BuildTree(w.fs, args.recent, w.now);
    AnnotateFails(t, w.py, w.js);
    if RunSpec(args, w).Failure? {
      assert AnnotateBuckets(t, w.py, w.js).error == RunSpec(args, w).error;
    }
  }

  /** The annotated tree keeps the keys and names of the plain one. */
  lemma AnnotatedSameNames(args: Args, w: World)
    requires CreateTreeSpec(w.fs, args.recent, w.now, true, w.py, w.js).Success?
    ensures SameNames(CreateTreeSpec(w.fs, args.recent, w.now, true, w.py, w.js).value, BuildTree(w.fs, args.recent, w.now))
  {
    var t := BuildTree(w.fs, args.recent, w.now);
    BuildTreeWellFormed(w.fs, args.recent, w.now);
    AnnotateShape(t, w.py, w.js);
  }

  /**
   * --map-functions changes only the drawing: when the annotated run
   * succeeds, it writes the same files, in the same order, as the plain run.
   */
  lemma MapFunctionsKeepsFiles(args: Args, w: World)
    requires CreateTreeSpec(w.fs, args.recent, w.now, true, w.py, w.js).Success?
    ensures var annotated := CreateTreeSpec(w.fs, args.recent, w.now, true, w.py, w.js).value;
            var plain := BuildTree(w.fs, args.recent, w.now);
            PassesBlocks(annotated, FileTypes(args.exportOptions), 0, w.isFile, w.read)
              == PassesBlocks(plain, FileTypes(args.exportOptions), 0, w.isFile, w.read)
  {
    AnnotatedSameNames(args, w);
    PassesBlocksNames(CreateTreeSpec(w.fs, args.recent, w.now, true, w.py, w.js).value,
                      BuildTree(w.fs, args.recent, w.now), FileTypes(args.exportOptions), 0, w.isFile, w.read);
  }

  /**
   * With 'all' selected, an included top-level file inside the recency
   * window that is a regular file is written to the export of the tree
   * that BuildTree produces, under its bare name.
   */
  lemma PlainFileExported(args: Args, w: World, s: Stat)
    requires "all" in FileTypes(args.exportOptions)
    requires TopFile(s) in w.fs.listing && s.name in IncludedFiles && IsRecent(args.recent, w.now, s.mtime)
    requires w.isFile(s.name)
    ensures var t := BuildTree(w.fs, args.recent, w.now);
            FileBlock(s.name, w.read(s.name)) in PassesBlocks(t, FileTypes(args.exportOptions), 0, w.isFile, w.read)
  {
    var t := BuildTree(w.fs, args.recent, w.now);
    BuildTreeWellFormed(w.fs, args.recent, w.now);
    RootBucket(w.fs, args.recent, w.now);
    RootEntriesMember(w.fs.listing, args.recent, w.now, Plain(s.name));
    assert Lookup(t, RootKey) == t[0].entries;
    var j :| 0 <= j < |t[0].entries| && t[0].entries[j] == Plain(s.name);
    assert FilePath(t[0].key, t[0].entries[j].name) == s.name;
    AllExportsEverything(t, FileTypes(args.exportOptions), w.exportStamp, w.isFile, w.read, 0, j);
    FileBlockInPasses(t, FileTypes(args.exportOptions), w.exportStamp, w.isFile, w.read, BlockOf(t, w.read, 0, j));
  }

  /**
   * With 'all' selected, an included top-level file inside the recency
   * window that is a regular file is written to the snapshot under its
   * bare name, with or without --map-functions, whenever the tree is built.
   */
  lemma IncludedFileExported(args: Args, w: World, s: Stat)
    requires CreateTreeSpec(w.fs, args.recent, w.now, args.mapFunctions, w.py, w.js).Success?
    requires "all" in FileTypes(args.exportOptions)
    requires TopFile(s) in w.fs.listing && s.name in IncludedFiles && IsRecent(args.recent, w.now, s.mtime)
    requires w.isFile(s.name)
    ensures var t := CreateTreeSpec(w.fs, args.recent, w.now, args.mapFunctions, w.py, w.js).value;
            FileBlock(s.name, w.read(s.name)) in ExportBlocks(t, FileTypes(args.exportOptions), w.exportStamp, w.isFile, w.read)
  {
    PlainFileExported(args, w, s);
    if args.mapFunctions {
      MapFunctionsKeepsFiles(args, w);
    }
  }
}
