/**
 * export_files: the snapshot text.  A header, the optional description and
 * drawing, then one pass per extension of the file order and a final pass
 * for everything else; each pass walks the whole tree and writes every
 * matching regular file between Start and End markers.  The filesystem is
 * two inputs: which paths are regular files, and what reading a path as
 * UTF-8 gives (None when decoding fails).
 */
module Export {
  import opened Wrappers
  import opened Strings
  import opened OrderedTree
  import opened Render

  /** One pass of the export loop: a named extension, or 'other'. */
  datatype Pass = Named(ext: string) | Other

  const FileOrder: seq<string> := [".py", ".html", ".json", ".js", ".css", ".md"]

  /** file_order + ['other'] */
  const Passes: seq<Pass> := [Named(".py"), Named(".html"), Named(".json"), Named(".js"), Named(".css"), Named(".md"), Other]

  const AppDescription: string := "\n    # \n    This is the app description.. \n    "

  /** os.path.isfile */
  type FileCheck = string -> bool

  /** Reading a path as UTF-8: its text, or None when decoding fails. */
  type Reader = string -> Option<string>

  /** Python's s[1:]. */
  function DropFirst(s: string): string
  {
    if s == [] then [] else s[1..]
  }

  /** A pass runs when its type, or 'all', was selected ('other' for the last pass). */
  predicate Enabled(pass: Pass, fileTypes: set<string>)
  {
    match pass
    case Named(ext) => DropFirst(ext) in fileTypes || "all" in fileTypes
    case Other => "all" in fileTypes || "other" in fileTypes
  }

  /** A named pass takes names ending with its extension; 'other' takes names whose splitext extension is not in the file order. */
  predicate Matches(pass: Pass, name: string)
  {
    match pass
    case Named(ext) => EndsWith(name, ext)
    case Other => SplitExt(name).1 !in FileOrder
  }

  /** A unit of the output. */
  datatype Block =
    | Header(stamp: string)
    | Description
    | Structure(drawing: string)
    | Contents(path: string, text: string)
    | Undecodable(path: string)

  function StartLine(path: string): string { "--- Start of " + path + " ---\n" }
  function EndLine(path: string): string { "\n--- End of " + path + " ---\n\n" }
  function UnableLine(path: string): string { "--- Unable to read " + path + " (possibly a binary file) ---\n\n" }

  /** The text written for a block.  An undecodable file's Start line is already written when reading fails. */
  function BlockText(b: Block): string
  {
    match b
    case Header(stamp) => "--- Export timestamp: " + stamp + " ---\n\n"
    case Description => AppDescription + "\n\n"
    case Structure(drawing) => "Project Structure:\n" + drawing + "\n\n"
    case Contents(path, text) => StartLine(path) + text + EndLine(path)
    case Undecodable(path) => StartLine(path) + UnableLine(path)
  }

  function Text(bs: seq<Block>): string
  {
    if bs == [] then "" else BlockText(bs[0]) + Text(bs[1..])
  }

  /** The block of a file that is written: its contents, or the unable marker. */
  function FileBlock(path: string, read: Option<string>): Block
  {
    if read.Some? then Contents(path, read.value) else Undecodable(path)
  }

  /** What one entry of bucket key contributes to a pass. */
  function EntryBlocks(key: string, name: string, pass: Pass, isFile: FileCheck, read: Reader): seq<Block>
  {
    var path := FilePath(key, name);
    if isFile(path) && Matches(pass, name) then [FileBlock(path, read(path))] else []
  }

  function EntriesBlocks(key: string, es: seq<Entry>, j: nat, pass: Pass, isFile: FileCheck, read: Reader): seq<Block>
    decreases |es| - j
  {
    if j >= |es| then [] else EntryBlocks(key, es[j].name, pass, isFile, read) + EntriesBlocks(key, es, j + 1, pass, isFile, read)
  }

  /** What bucket i contributes to a pass. */
  function BucketBlocks(t: Tree, i: nat, pass: Pass, isFile: FileCheck, read: Reader): seq<Block>
    requires i < |t|
  {
    EntriesBlocks(t[i].key, t[i].entries, 0, pass, isFile, read)
  }

  function BucketsBlocks(t: Tree, i: nat, pass: Pass, isFile: FileCheck, read: Reader): seq<Block>
    decreases |t| - i
  {
    if i >= |t| then [] else BucketBlocks(t, i, pass, isFile, read) + BucketsBlocks(t, i + 1, pass, isFile, read)
  }

  function PassesBlocks(t: Tree, fileTypes: set<string>, n: nat, isFile: FileCheck, read: Reader): seq<Block>
    decreases |Passes| - n
  {
    if n >= |Passes| then []
    else
      (if Enabled(Passes[n], fileTypes) then BucketsBlocks(t, 0, Passes[n], isFile, read) else [])
        + PassesBlocks(t, fileTypes, n + 1, isFile, read)
  }

  /** The header, then the description and the drawing when selected. */
  function Preamble(t: Tree, fileTypes: set<string>, stamp: string): seq<Block>
  {
    [Header(stamp)]
      + (if "description" in fileTypes then [Description] else [])
      + (if "tree" in fileTypes then [Structure(TreeString(t))] else [])
  }

  function ExportBlocks(t: Tree, fileTypes: set<string>, stamp: string, isFile: FileCheck, read: Reader): seq<Block>
  {
    Preamble(t, fileTypes, stamp) + PassesBlocks(t, fileTypes, 0, isFile, read)
  }

  /** The content of the output file. */
  function ExportText(t: Tree, fileTypes: set<string>, stamp: string, isFile: FileCheck, read: Reader): string
  {
    Text(ExportBlocks(t, fileTypes, stamp, isFile, read))
  }

  lemma {:induction false} TextConcat(a: seq<Block>, b: seq<Block>)
    ensures Text(a + b) == Text(a) + Text(b)
    decreases |a|
  {
    if a == [] {
      assert a + b == b;
    } else {
      assert (a + b)[0] == a[0] && (a + b)[1..] == a[1..] + b;
      TextConcat(a[1..], b);
      ConcatAssoc(BlockText(a[0]), Text(a[1..]), Text(b));
    }
  }

  lemma TextOne(b: Block, rest: seq<Block>)
    ensures Text([b] + rest) == BlockText(b) + Text(rest)
  {
    assert ([b] + rest)[0] == b && ([b] + rest)[1..] == rest;
  }

  lemma Assoc3(o: string, a: string, b: string, c: string)
    ensures ((o + a) + b) + c == o + ((a + b) + c)
  {
    ConcatAssoc(o, a, b);
    ConcatAssoc(o, a + b, c);
  }

  // ---------------------------------------------------------------- code

  /** export_files, writing the output piece by piece. */
  method ExportFiles(t: Tree, fileTypes: set<string>, stamp: string, isFile: FileCheck, read: Reader) returns (out: string)
    ensures out == ExportText(t, fileTypes, stamp, isFile, read)
  {
    out := WritePreamble(t, fileTypes, stamp);
    TextConcat(Preamble(t, fileTypes, stamp), PassesBlocks(t, fileTypes, 0, isFile, read));

    for n := 0 to |Passes|
      invariant out + Text(PassesBlocks(t, fileTypes, n, isFile, read)) == ExportText(t, fileTypes, stamp, isFile, read)
    {
      ghost var here := if Enabled(Passes[n], fileTypes) then BucketsBlocks(t, 0, Passes[n], isFile, read) else [];
      ghost var later := PassesBlocks(t, fileTypes, n + 1, isFile, read);
      TextConcat(here, later);
      ConcatAssoc(out, Text(here), Text(later));
      if Enabled(Passes[n], fileTypes) {
        out := ExportPass(out, t, Passes[n], isFile, read);
      } else {
        assert out + Text(here) == out;
      }
    }
    assert out + "" == out;
  }

  /** The timestamp header, then the description and the drawing when selected. */
  method WritePreamble(t: Tree, fileTypes: set<string>, stamp: string) returns (out: string)
    ensures out == Text(Preamble(t, fileTypes, stamp))
  {
    ghost var description: seq<Block> := if "description" in fileTypes then [Description] else [];
    ghost var structure: seq<Block> := if "tree" in fileTypes then [Structure(TreeString(t))] else [];
    out := "--- Export timestamp: " + stamp + " ---\n\n";
    assert out == Text([Header(stamp)]);
    if "description" in fileTypes {
      out := out + AppDescription;
      out := out + "\n\n";
      ConcatAssoc(Text([Header(stamp)]), AppDescription, "\n\n");
      TextOne(Description, []);
    }
    TextConcat([Header(stamp)], description);
    assert out == Text([Header(stamp)] + description);
    if "tree" in fileTypes {
      out := out + "Project Structure:\n";
      var drawing := GenerateTreeString(t);
      out := out + drawing;
      out := out + "\n\n";
      Assoc3(Text([Header(stamp)] + description), "Project Structure:\n", drawing, "\n\n");
      TextOne(Structure(drawing), []);
    }
    TextConcat([Header(stamp)] + description, structure);
  }

  /** One pass over every bucket of the tree. */
  method ExportPass(out0: string, t: Tree, pass: Pass, isFile: FileCheck, read: Reader) returns (out: string)
    ensures out == out0 + Text(BucketsBlocks(t, 0, pass, isFile, read))
  {
    out := out0;
    for i := 0 to |t|
      invariant out + Text(BucketsBlocks(t, i, pass, isFile, read)) == out0 + Text(BucketsBlocks(t, 0, pass, isFile, read))
    {
      ghost var here := EntriesBlocks(t[i].key, t[i].entries, 0, pass, isFile, read);
      ghost var later := BucketsBlocks(t, i + 1, pass, isFile, read);
      TextConcat(here, later);
      ConcatAssoc(out, Text(here), Text(later));
      out := ExportBucket(out, t[i].key, t[i].entries, pass, isFile, read);
    }
    assert out + "" == out;
  }

  /** One pass over the entries of one bucket. */
  method ExportBucket(out0: string, key: string, es: seq<Entry>, pass: Pass, isFile: FileCheck, read: Reader) returns (out: string)
    ensures out == out0 + Text(EntriesBlocks(key, es, 0, pass, isFile, read))
  {
    out := out0;
    for j := 0 to |es|
      invariant out + Text(EntriesBlocks(key, es, j, pass, isFile, read)) == out0 + Text(EntriesBlocks(key, es, 0, pass, isFile, read))
    {
      ghost var here := EntryBlocks(key, es[j].name, pass, isFile, read);
      ghost var later := EntriesBlocks(key, es, j + 1, pass, isFile, read);
      TextConcat(here, later);
      ConcatAssoc(out, Text(here), Text(later));
      out := ExportEntry(out, key, es[j].name, pass, isFile, read);
    }
    assert out + "" == out;
  }

  /** The body of the entry loop: the file is written when it exists and belongs to the pass. */
  method ExportEntry(out0: string, key: string, name: string, pass: Pass, isFile: FileCheck, read: Reader) returns (out: string)
    ensures out == out0 + Text(EntryBlocks(key, name, pass, isFile, read))
  {
    out := out0;
    var path := if key != RootKey then PathJoin(key, name) else name;
    assert path == FilePath(key, name);
    if isFile(path) && !(pass.Other? && SplitExt(name).1 in FileOrder) && !(pass.Named? && !EndsWith(name, pass.ext)) {
      assert Matches(pass, name);
      TextOne(FileBlock(path, read(path)), []);
      match read(path) {
        case Some(content) =>
          out := out + StartLine(path);
          out := out + content;
          out := out + EndLine(path);
          Assoc3(out0, StartLine(path), content, EndLine(path));
        case None =>
          out := out + StartLine(path);
          out := out + UnableLine(path);
          ConcatAssoc(out0, StartLine(path), UnableLine(path));
      }
      assert out == out0 + BlockText(FileBlock(path, read(path)));
    } else {
      assert out + Text([]) == out;
    }
  }

  // ---------------------------------------------------------- properties

  /** Entry j of bucket i is written by pass n: the pass is enabled, the path is a regular file and the name matches. */
  predicate Written(t: Tree, fileTypes: set<string>, isFile: FileCheck, n: int, i: int, j: int)
  {
    0 <= n < |Passes| && 0 <= i < |t| && 0 <= j < |t[i].entries|
    && Enabled(Passes[n], fileTypes)
    && isFile(FilePath(t[i].key, t[i].entries[j].name))
    && Matches(Passes[n], t[i].entries[j].name)
  }

  /** The block written for entry j of bucket i. */
  function BlockOf(t: Tree, read: Reader, i: nat, j: nat): Block
    requires i < |t| && j < |t[i].entries|
  {
    var path := FilePath(t[i].key, t[i].entries[j].name);
    FileBlock(path, read(path))
  }

  predicate IsFileBlock(b: Block)
  {
    b.Contents? || b.Undecodable?
  }

  /** The concatenation of f(lo), ..., f(hi - 1). */
  function FlatFrom<T>(f: nat -> seq<T>, lo: nat, hi: nat): seq<T>
    decreases hi - lo
  {
    if lo >= hi then [] else f(lo) + FlatFrom(f, lo + 1, hi)
  }

  lemma {:induction false} FlatFromMember<T>(f: nat -> seq<T>, lo: nat, hi: nat, x: T)
    ensures x in FlatFrom(f, lo, hi) <==> exists k :: lo <= k < hi && x in f(k)
    decreases hi - lo
  {
    if lo < hi {
      FlatFromMember(f, lo + 1, hi, x);
      var rest := FlatFrom(f, lo + 1, hi);
      assert FlatFrom(f, lo, hi) == f(lo) + rest;
      assert x in f(lo) + rest <==> x in f(lo) || x in rest;
      if x in f(lo) {
        assert lo <= lo < hi && x in f(lo);
      }
      if x in rest {
        var k :| lo + 1 <= k < hi && x in f(k);
        assert lo <= k < hi && x in f(k);
      }
      if exists k :: lo <= k < hi && x in f(k) {
        var k :| lo <= k < hi && x in f(k);
        if k > lo {
          assert x in rest;
        }
      }
    }
  }

  /** The blocks of each entry of a bucket, by position. */
  function EntryParts(key: string, es: seq<Entry>, pass: Pass, isFile: FileCheck, read: Reader): nat -> seq<Block>
  {
    (j: nat) => if j < |es| then EntryBlocks(key, es[j].name, pass, isFile, read) else []
  }

  lemma {:induction false} EntriesBlocksFlat(key: string, es: seq<Entry>, j0: nat, pass: Pass, isFile: FileCheck, read: Reader)
    ensures EntriesBlocks(key, es, j0, pass, isFile, read) == FlatFrom(EntryParts(key, es, pass, isFile, read), j0, |es|)
    decreases |es| - j0
  {
    if j0 < |es| {
      EntriesBlocksFlat(key, es, j0 + 1, pass, isFile, read);
    }
  }

  lemma EntriesBlocksMember(key: string, es: seq<Entry>, j0: nat, pass: Pass, isFile: FileCheck, read: Reader, b: Block)
    ensures b in EntriesBlocks(key, es, j0, pass, isFile, read)
        <==> exists j :: j0 <= j < |es| && b in EntryBlocks(key, es[j].name, pass, isFile, read)
  {
    var f := EntryParts(key, es, pass, isFile, read);
    EntriesBlocksFlat(key, es, j0, pass, isFile, read);
    FlatFromMember(f, j0, |es|, b);
    if exists j :: j0 <= j < |es| && b in EntryBlocks(key, es[j].name, pass, isFile, read) {
      var j :| j0 <= j < |es| && b in EntryBlocks(key, es[j].name, pass, isFile, read);
      assert b in f(j);
    }
  }

  /** The blocks of each bucket of a tree, by position. */
  function BucketParts(t: Tree, pass: Pass, isFile: FileCheck, read: Reader): nat -> seq<Block>
  {
    (i: nat) => if i < |t| then BucketBlocks(t, i, pass, isFile, read) else []
  }

  lemma {:induction false} BucketsBlocksFlat(t: Tree, i0: nat, pass: Pass, isFile: FileCheck, read: Reader)
    ensures BucketsBlocks(t, i0, pass, isFile, read) == FlatFrom(BucketParts(t, pass, isFile, read), i0, |t|)
    decreases |t| - i0
  {
    if i0 < |t| {
      BucketsBlocksFlat(t, i0 + 1, pass, isFile, read);
    }
  }

  lemma BucketsBlocksMember(t: Tree, i0: nat, pass: Pass, isFile: FileCheck, read: Reader, b: Block)
    ensures b in BucketsBlocks(t, i0, pass, isFile, read)
        <==> exists i :: i0 <= i < |t| && b in BucketBlocks(t, i, pass, isFile, read)
  {
    var f := BucketParts(t, pass, isFile, read);
    BucketsBlocksFlat(t, i0, pass, isFile, read);
    FlatFromMember(f, i0, |t|, b);
    if exists i :: i0 <= i < |t| && b in BucketBlocks(t, i, pass, isFile, read) {
      var i :| i0 <= i < |t| && b in BucketBlocks(t, i, pass, isFile, read);
      assert b in f(i);
    }
  }

  lemma {:induction false} PassesBlocksMember(t: Tree, fileTypes: set<string>, n0: nat, isFile: FileCheck, read: Reader, b: Block)
    ensures b in PassesBlocks(t, fileTypes, n0, isFile, read)
        <==> exists n :: n0 <= n < |Passes| && Enabled(Passes[n], fileTypes) && b in BucketsBlocks(t, 0, Passes[n], isFile, read)
    decreases |Passes| - n0
  {
    if n0 < |Passes| {
      PassesBlocksMember(t, fileTypes, n0 + 1, isFile, read, b);
      var head := if Enabled(Passes[n0], fileTypes) then BucketsBlocks(t, 0, Passes[n0], isFile, read) else [];
      var rest := PassesBlocks(t, fileTypes, n0 + 1, isFile, read);
      assert PassesBlocks(t, fileTypes, n0, isFile, read) == head + rest;
      if b in head {
        assert Enabled(Passes[n0], fileTypes) && b in BucketsBlocks(t, 0, Passes[n0], isFile, read);
      }
      if exists n :: n0 <= n < |Passes| && Enabled(Passes[n], fileTypes) && b in BucketsBlocks(t, 0, Passes[n], isFile, read) {
        var n :| n0 <= n < |Passes| && Enabled(Passes[n], fileTypes) && b in BucketsBlocks(t, 0, Passes[n], isFile, read);
        if n > n0 {
          assert b in rest;
        } else {
          assert b in head;
        }
      }
    }
  }

  lemma EntryBlocksMember(t: Tree, fileTypes: set<string>, isFile: FileCheck, read: Reader, n: nat, i: nat, j: nat, b: Block)
    requires n < |Passes| && i < |t| && j < |t[i].entries| && Enabled(Passes[n], fileTypes)
    ensures b in EntryBlocks(t[i].key, t[i].entries[j].name, Passes[n], isFile, read)
        <==> Written(t, fileTypes, isFile, n, i, j) && b == BlockOf(t, read, i, j)
  {
  }

  /** The blocks of one pass over the tree, as a membership in the three nested loops. */
  lemma InPass(t: Tree, fileTypes: set<string>, isFile: FileCheck, read: Reader, n: nat, b: Block)
    requires n < |Passes| && Enabled(Passes[n], fileTypes)
    ensures b in BucketsBlocks(t, 0, Passes[n], isFile, read)
        <==> exists i, j :: Written(t, fileTypes, isFile, n, i, j) && b == BlockOf(t, read, i, j)
  {
    var pass := Passes[n];
    BucketsBlocksMember(t, 0, pass, isFile, read, b);
    if b in BucketsBlocks(t, 0, pass, isFile, read) {
      var i :| 0 <= i < |t| && b in BucketBlocks(t, i, pass, isFile, read);
      EntriesBlocksMember(t[i].key, t[i].entries, 0, pass, isFile, read, b);
      var j :| 0 <= j < |t[i].entries| && b in EntryBlocks(t[i].key, t[i].entries[j].name, pass, isFile, read);
      EntryBlocksMember(t, fileTypes, isFile, read, n, i, j, b);
    }
    if exists i, j :: Written(t, fileTypes, isFile, n, i, j) && b == BlockOf(t, read, i, j) {
      var i, j :| Written(t, fileTypes, isFile, n, i, j) && b == BlockOf(t, read, i, j);
      EntryBlocksMember(t, fileTypes, isFile, read, n, i, j, b);
      EntriesBlocksMember(t[i].key, t[i].entries, 0, pass, isFile, read, b);
      assert b in BucketBlocks(t, i, pass, isFile, read);
    }
  }

  /**
   * The file blocks of the output: a file's contents (or its unable
   * marker) appear exactly when some enabled pass finds a tree entry whose
   * path is a regular file and whose name matches the pass.
   */
  lemma ExportedFiles(t: Tree, fileTypes: set<string>, stamp: string, isFile: FileCheck, read: Reader, b: Block)
    requires IsFileBlock(b)
    ensures b in ExportBlocks(t, fileTypes, stamp, isFile, read)
        <==> exists n, i, j :: Written(t, fileTypes, isFile, n, i, j) && b == BlockOf(t, read, i, j)
  {
    PassesBlocksMember(t, fileTypes, 0, isFile, read, b);
    assert b !in Preamble(t, fileTypes, stamp);
    if b in PassesBlocks(t, fileTypes, 0, isFile, read) {
      var n :| 0 <= n < |Passes| && Enabled(Passes[n], fileTypes) && b in BucketsBlocks(t, 0, Passes[n], isFile, read);
      InPass(t, fileTypes, isFile, read, n, b);
    }
    if exists n, i, j :: Written(t, fileTypes, isFile, n, i, j) && b == BlockOf(t, read, i, j) {
      var n, i, j :| Written(t, fileTypes, isFile, n, i, j) && b == BlockOf(t, read, i, j);
      InPass(t, fileTypes, isFile, read, n, b);
    }
  }

  /** Every name is taken by some pass: by its extension's pass when that is in the file order, else by 'other'. */
  lemma SomePassMatches(name: string) returns (n: nat)
    ensures n < |Passes| && Matches(Passes[n], name)
  {
    var e := SplitExt(name).1;
    if e in FileOrder {
      n :| 0 <= n < |FileOrder| && FileOrder[n] == e;
      NamedPass(n);
      SplitExtEnds(name);
      assert Matches(Named(e), name);
    } else {
      n := 6;
      assert Passes[n] == Other;
    }
  }

  /** The first six passes are the extensions of the file order, in that order. */
  lemma NamedPass(n: nat)
    requires n < |FileOrder|
    ensures Passes[n] == Named(FileOrder[n])
  {
  }

  lemma SplitExtEnds(name: string)
    ensures EndsWith(name, SplitExt(name).1)
  {
    var r := SplitExt(name);
    assert name == r.0 + r.1;
    assert name[|name| - |r.1|..] == r.1;
  }

  /** With 'all' selected, every regular file of the tree is written. */
  lemma AllExportsEverything(t: Tree, fileTypes: set<string>, stamp: string, isFile: FileCheck, read: Reader, i: nat, j: nat)
    requires "all" in fileTypes
    requires i < |t| && j < |t[i].entries| && isFile(FilePath(t[i].key, t[i].entries[j].name))
    ensures BlockOf(t, read, i, j) in ExportBlocks(t, fileTypes, stamp, isFile, read)
  {
    var n := SomePassMatches(t[i].entries[j].name);
    assert Written(t, fileTypes, isFile, n, i, j);
    ExportedFiles(t, fileTypes, stamp, isFile, read, BlockOf(t, read, i, j));
  }

  /** A file's block in the output comes from a pass, never from the preamble. */
  lemma FileBlockInPasses(t: Tree, fileTypes: set<string>, stamp: string, isFile: FileCheck, read: Reader, b: Block)
    requires IsFileBlock(b) && b in ExportBlocks(t, fileTypes, stamp, isFile, read)
    ensures b in PassesBlocks(t, fileTypes, 0, isFile, read)
  {
    assert b !in Preamble(t, fileTypes, stamp);
  }

  lemma SuffixOfSuffix(name: string, a: string, b: string)
    requires EndsWith(name, a) && EndsWith(name, b) && |a| <= |b|
    ensures EndsWith(b, a)
  {
    assert b[|b| - |a|..] == name[|name| - |a|..];
  }

  /** No extension of the file order ends with another. */
  lemma FileOrderSuffixFree(a: string, b: string)
    requires a in FileOrder && b in FileOrder && a != b && |a| <= |b|
    ensures !EndsWith(b, a)
  {
  }

  /** At most one named pass takes a given name. */
  lemma OneNamedPass(name: string, a: string, b: string)
    requires a in FileOrder && b in FileOrder
    requires Matches(Named(a), name) && Matches(Named(b), name)
    ensures a == b
  {
    if a != b {
      if |a| <= |b| {
        SuffixOfSuffix(name, a, b);
        FileOrderSuffixFree(a, b);
      } else {
        SuffixOfSuffix(name, b, a);
        FileOrderSuffixFree(b, a);
      }
    }
  }

  lemma LastDot(name: string, e: string)
    requires e in FileOrder && EndsWith(name, e)
    ensures RFind(name, '.') == |name| - |e|
  {
    var d := |name| - |e|;
    DotLayout(e);
    var tail := name[d..];
    assert tail == e;
    assert name[d] == tail[0];
    forall m | d < m < |name| ensures name[m] != '.' {
      assert name[m] == tail[m - d];
    }
    RFindLast(name, '.', d);
  }

  lemma DotLayout(e: string)
    requires e in FileOrder
    ensures |e| > 0 && e[0] == '.' && forall m :: 1 <= m < |e| ==> e[m] != '.'
  {
  }

  /**
   * A name is written twice, by its extension's pass and by 'other',
   * exactly when it ends with the extension and only dots precede it
   * (".py", "..md"): splitext sees no extension in such a name.
   */
  lemma TwoPasses(name: string, e: string)
    requires e in FileOrder && '/' !in name
    ensures Matches(Named(e), name) && Matches(Other, name)
        <==> EndsWith(name, e) && forall k :: 0 <= k < |name| - |e| ==> name[k] == '.'
  {
    if EndsWith(name, e) {
      LastDot(name, e);
      var d := |name| - |e|;
      assert RFind(name, '/') == -1;
      if HasNonDot(name, 0, d) {
        assert SplitExt(name).1 == name[d..];
        assert name[d..] == e;
      } else {
        assert SplitExt(name).1 == "";
      }
    }
  }

  /** No named pass takes a ".txt" file, so such a file can only be written by 'other'. */
  lemma TxtOnlyOther(name: string, e: string)
    requires EndsWith(name, ".txt") && e in FileOrder
    ensures !Matches(Named(e), name)
  {
    assert name[|name| - 1] == ".txt"[3] == 't';
    assert |e| > 0 && e[|e| - 1] != 't';
    EndsWithLast(name, e);
  }

  /** The file ".py" is written twice. */
  lemma DotfileTwice()
    ensures Matches(Named(".py"), ".py") && Matches(Other, ".py")
  {
    TwoPasses(".py", ".py");
  }

  /** Two trees with the same keys and the same entry names, position by position. */
  predicate SameNames(t: Tree, u: Tree)
  {
    && |t| == |u|
    && (forall i :: 0 <= i < |t| ==> t[i].key == u[i].key && |t[i].entries| == |u[i].entries|)
    && (forall i, j :: 0 <= i < |t| && 0 <= j < |t[i].entries| ==> t[i].entries[j].name == u[i].entries[j].name)
  }

  /** Concatenations of pointwise equal parts are equal. */
  lemma {:induction false} FlatFromPointwise<T>(f: nat -> seq<T>, g: nat -> seq<T>, lo: nat, hi: nat)
    requires forall k :: lo <= k < hi ==> f(k) == g(k)
    ensures FlatFrom(f, lo, hi) == FlatFrom(g, lo, hi)
    decreases hi - lo
  {
    if lo < hi {
      FlatFromPointwise(f, g, lo + 1, hi);
      assert f(lo) == g(lo);
    }
  }

  lemma EntriesBlocksNames(key: string, es: seq<Entry>, fs: seq<Entry>, pass: Pass, isFile: FileCheck, read: Reader)
    requires |es| == |fs| && forall m :: 0 <= m < |es| ==> es[m].name == fs[m].name
    ensures EntriesBlocks(key, es, 0, pass, isFile, read) == EntriesBlocks(key, fs, 0, pass, isFile, read)
  {
    var f := EntryParts(key, es, pass, isFile, read);
    var g := EntryParts(key, fs, pass, isFile, read);
    forall k | 0 <= k < |es| ensures f(k) == g(k) {
      assert es[k].name == fs[k].name;
    }
    FlatFromPointwise(f, g, 0, |es|);
    EntriesBlocksFlat(key, es, 0, pass, isFile, read);
    EntriesBlocksFlat(key, fs, 0, pass, isFile, read);
  }

  lemma BucketBlocksNames(t: Tree, u: Tree, i: nat, pass: Pass, isFile: FileCheck, read: Reader)
    requires SameNames(t, u) && i < |t|
    ensures BucketBlocks(t, i, pass, isFile, read) == BucketBlocks(u, i, pass, isFile, read)
  {
    assert t[i].key == u[i].key;
    assert forall m :: 0 <= m < |t[i].entries| ==> t[i].entries[m].name == u[i].entries[m].name;
    EntriesBlocksNames(t[i].key, t[i].entries, u[i].entries, pass, isFile, read);
  }

  lemma BucketsBlocksNames(t: Tree, u: Tree, pass: Pass, isFile: FileCheck, read: Reader)
    requires SameNames(t, u)
    ensures BucketsBlocks(t, 0, pass, isFile, read) == BucketsBlocks(u, 0, pass, isFile, read)
  {
    var f := BucketParts(t, pass, isFile, read);
    var g := BucketParts(u, pass, isFile, read);
    forall k | 0 <= k < |t| ensures f(k) == g(k) {
      BucketBlocksNames(t, u, k, pass, isFile, read);
    }
    FlatFromPointwise(f, g, 0, |t|);
    BucketsBlocksFlat(t, 0, pass, isFile, read);
    BucketsBlocksFlat(u, 0, pass, isFile, read);
  }

  lemma {:induction false} PassesBlocksNames(t: Tree, u: Tree, fileTypes: set<string>, n: nat, isFile: FileCheck, read: Reader)
    requires SameNames(t, u)
    ensures PassesBlocks(t, fileTypes, n, isFile, read) == PassesBlocks(u, fileTypes, n, isFile, read)
    decreases |Passes| - n
  {
    if n < |Passes| {
      PassesBlocksNames(t, u, fileTypes, n + 1, isFile, read);
      BucketsBlocksNames(t, u, Passes[n], isFile, read);
    }
  }
}
