/**
 * generate_tree_string: the "Project Structure" drawing of a tree.  Every
 * bucket except 'root' gets a heading line with the basename of its key, then
 * one line per entry and, for annotated entries, one line per symbol.  The
 * inner helper is always called with an empty prefix, so no prefix appears.
 */
module Render {
  import opened Strings
  import opened OrderedTree

  /** "└── " for the last item of a list, "├── " otherwise. */
  function Connector(last: bool): string
  {
    if last then "\U{2514}\U{2500}\U{2500} " else "\U{251C}\U{2500}\U{2500} "
  }

  /** The indentation under a bucket heading: blank below the last bucket, a bar otherwise. */
  function Extension(last: bool): string
  {
    if last then "    " else "\U{2502}   "
  }

  /** The connector of a symbol line: the item connector shifted by four spaces. */
  function SymbolConnector(last: bool): string
  {
    "    " + Connector(last)
  }

  /** The indentation of the entries of bucket i. */
  function BucketExtension(t: Tree, i: nat): string
  {
    Extension(i == |t| - 1)
  }

  function Heading(t: Tree, i: nat): string
    requires i < |t|
  {
    Connector(i == |t| - 1) + Basename(t[i].key) + "/"
  }

  function EntryLine(ext: string, es: seq<Entry>, j: nat): string
    requires j < |es|
  {
    ext + Connector(j == |es| - 1) + es[j].name
  }

  function SymbolLine(ext: string, syms: seq<string>, k: nat): string
    requires k < |syms|
  {
    ext + "    " + SymbolConnector(k == |syms| - 1) + syms[k]
  }

  /** The lines of one file's symbols, in order. */
  function SymbolLines(ext: string, syms: seq<string>): seq<string>
  {
    seq(|syms|, k requires 0 <= k < |syms| => SymbolLine(ext, syms, k))
  }

  /** The lines of entries j.. of a bucket. */
  function EntriesFrom(ext: string, es: seq<Entry>, j: nat): seq<string>
    decreases |es| - j
  {
    if j >= |es| then []
    else
      ([EntryLine(ext, es, j)] + (if es[j].Annotated? then SymbolLines(ext, es[j].symbols) else []))
        + EntriesFrom(ext, es, j + 1)
  }

  /** The lines of bucket i: none for 'root'. */
  function BucketLines(t: Tree, i: nat): seq<string>
    requires i < |t|
  {
    if t[i].key == RootKey then []
    else [Heading(t, i)] + EntriesFrom(BucketExtension(t, i), t[i].entries, 0)
  }

  function LinesFrom(t: Tree, i: nat): seq<string>
    decreases |t| - i
  {
    if i >= |t| then [] else BucketLines(t, i) + LinesFrom(t, i + 1)
  }

  function TreeLines(t: Tree): seq<string>
  {
    LinesFrom(t, 0)
  }

  /** Each line followed by a newline. */
  function Unlines(ls: seq<string>): string
  {
    if ls == [] then "" else (ls[0] + "\n") + Unlines(ls[1..])
  }

  function TreeString(t: Tree): string
  {
    Unlines(TreeLines(t))
  }

  lemma UnlinesCons(x: string, ls: seq<string>)
    ensures Unlines([x] + ls) == (x + "\n") + Unlines(ls)
  {
    assert ([x] + ls)[0] == x && ([x] + ls)[1..] == ls;
  }

  lemma {:induction false} UnlinesConcat(a: seq<string>, b: seq<string>)
    ensures Unlines(a + b) == Unlines(a) + Unlines(b)
    decreases |a|
  {
    if a == [] {
      assert a + b == b;
    } else {
      assert (a + b)[0] == a[0] && (a + b)[1..] == a[1..] + b;
      UnlinesConcat(a[1..], b);
      ConcatAssoc(a[0] + "\n", Unlines(a[1..]), Unlines(b));
    }
  }

  /** generate_tree_string, appending to the result line by line. */
  method GenerateTreeString(t: Tree) returns (s: string)
    ensures s == TreeString(t)
  {
    s := "";
    for i := 0 to |t|
      invariant s + Unlines(LinesFrom(t, i)) == TreeString(t)
    {
      ghost var rest := Unlines(LinesFrom(t, i + 1));
      UnlinesConcat(BucketLines(t, i), LinesFrom(t, i + 1));
      ConcatAssoc(s, Unlines(BucketLines(t, i)), rest);
      if t[i].key != RootKey {
        s := AppendBucket(s, t, i);
      } else {
        assert s + Unlines(BucketLines(t, i)) == s;
      }
    }
  }

  /** One pass of the loop over the buckets, for a bucket other than 'root'. */
  method AppendBucket(s0: string, t: Tree, i: nat) returns (s: string)
    requires i < |t| && t[i].key != RootKey
    ensures s == s0 + Unlines(BucketLines(t, i))
  {
    var last := i == |t| - 1;
    var ext := Extension(last);
    assert ext == BucketExtension(t, i);
    ghost var heading := Heading(t, i);
    ghost var entries := EntriesFrom(ext, t[i].entries, 0);
    UnlinesCons(heading, entries);
    ConcatAssoc(s0, heading + "\n", Unlines(entries));
    s := s0 + (Connector(last) + Basename(t[i].key) + "/" + "\n");
    s := AppendEntries(s, ext, t[i].entries);
  }

  /** The loop over the entries of one bucket. */
  method AppendEntries(s0: string, ext: string, es: seq<Entry>) returns (s: string)
    ensures s == s0 + Unlines(EntriesFrom(ext, es, 0))
  {
    s := s0;
    for j := 0 to |es|
      invariant s + Unlines(EntriesFrom(ext, es, j)) == s0 + Unlines(EntriesFrom(ext, es, 0))
    {
      var e := es[j];
      ghost var line := EntryLine(ext, es, j);
      ghost var syms := if e.Annotated? then SymbolLines(ext, e.symbols) else [];
      ghost var later := Unlines(EntriesFrom(ext, es, j + 1));
      assert EntriesFrom(ext, es, j) == ([line] + syms) + EntriesFrom(ext, es, j + 1);
      UnlinesConcat([line] + syms, EntriesFrom(ext, es, j + 1));
      UnlinesCons(line, syms);
      ConcatAssoc(line + "\n", Unlines(syms), later);
      ConcatAssoc(s, line + "\n", Unlines(syms) + later);
      ConcatAssoc(s + (line + "\n"), Unlines(syms), later);
      assert s + Unlines(EntriesFrom(ext, es, j)) == (s + (line + "\n")) + Unlines(syms) + later;
      s := s + (ext + Connector(j == |es| - 1) + e.name + "\n");
      if e.Annotated? {
        s := AppendSymbols(s, ext, e.symbols);
      } else {
        assert s + Unlines(syms) == s;
      }
    }
  }

  /** The loop over the symbols of one annotated file. */
  method AppendSymbols(s0: string, ext: string, syms: seq<string>) returns (s: string)
    ensures s == s0 + Unlines(SymbolLines(ext, syms))
  {
    s := s0;
    ghost var ls := SymbolLines(ext, syms);
    for k := 0 to |syms|
      invariant s + Unlines(ls[k..]) == s0 + Unlines(ls)
    {
      assert ls[k..] == [ls[k]] + ls[k + 1..];
      UnlinesCons(ls[k], ls[k + 1..]);
      ConcatAssoc(s, ls[k] + "\n", Unlines(ls[k + 1..]));
      s := s + (ext + "    " + SymbolConnector(k == |syms| - 1) + syms[k] + "\n");
    }
    assert ls[|syms|..] == [];
    assert s + "" == s;
  }

  // ---------------------------------------------------------- properties

  /** A tree holding only 'root' draws nothing, whatever files 'root' holds. */
  lemma RootOnly(es: seq<Entry>)
    ensures TreeString([Bucket(RootKey, es)]) == ""
  {
    assert LinesFrom([Bucket(RootKey, es)], 1) == [];
  }

  lemma {:induction false} LinesFromAgree(t: Tree, u: Tree, i: nat)
    requires |t| == |u|
    requires forall j :: i <= j < |t| ==> BucketLines(t, j) == BucketLines(u, j)
    ensures LinesFrom(t, i) == LinesFrom(u, i)
    decreases |t| - i
  {
    if i < |t| {
      LinesFromAgree(t, u, i + 1);
      assert LinesFrom(t, i) == BucketLines(t, i) + LinesFrom(t, i + 1);
      assert LinesFrom(u, i) == BucketLines(u, i) + LinesFrom(u, i + 1);
    }
  }

  /** The files of 'root' are never drawn: replacing them leaves the drawing unchanged. */
  lemma RootIgnored(t: Tree, i: nat, es: seq<Entry>)
    requires i < |t| && t[i].key == RootKey
    ensures TreeString(t[i := Bucket(RootKey, es)]) == TreeString(t)
  {
    var u := t[i := Bucket(RootKey, es)];
    forall j | 0 <= j < |t| ensures BucketLines(t, j) == BucketLines(u, j) {
      if j != i {
        assert u[j] == t[j];
      }
    }
    LinesFromAgree(t, u, 0);
  }

  lemma {:induction false} LinesFromContains(t: Tree, i0: nat, i: nat)
    requires i0 <= i < |t|
    ensures forall l :: l in BucketLines(t, i) ==> l in LinesFrom(t, i0)
    decreases i - i0
  {
    if i0 < i {
      LinesFromContains(t, i0 + 1, i);
    }
  }

  lemma {:induction false} EntriesFromContains(ext: string, es: seq<Entry>, j0: nat, j: nat)
    requires j0 <= j < |es|
    ensures EntryLine(ext, es, j) in EntriesFrom(ext, es, j0)
    ensures es[j].Annotated? ==> forall l :: l in SymbolLines(ext, es[j].symbols) ==> l in EntriesFrom(ext, es, j0)
    decreases j - j0
  {
    var head := [EntryLine(ext, es, j0)] + (if es[j0].Annotated? then SymbolLines(ext, es[j0].symbols) else []);
    var rest := EntriesFrom(ext, es, j0 + 1);
    assert EntriesFrom(ext, es, j0) == head + rest;
    if j0 < j {
      EntriesFromContains(ext, es, j0 + 1, j);
    } else {
      assert head[0] == EntryLine(ext, es, j);
    }
  }

  /**
   * Every bucket other than 'root' is drawn: its heading, each of its
   * entries with "└── " exactly on the last one, and each symbol of an
   * annotated entry with "└── " exactly on the last symbol.
   */
  lemma BucketRendered(t: Tree, i: nat)
    requires i < |t| && t[i].key != RootKey
    ensures Heading(t, i) in TreeLines(t)
    ensures forall j :: 0 <= j < |t[i].entries| ==>
              EntryLine(BucketExtension(t, i), t[i].entries, j) in TreeLines(t)
    ensures forall j, k :: 0 <= j < |t[i].entries| && t[i].entries[j].Annotated? && 0 <= k < |t[i].entries[j].symbols| ==>
              SymbolLine(BucketExtension(t, i), t[i].entries[j].symbols, k) in TreeLines(t)
  {
    var ext := BucketExtension(t, i);
    var es := t[i].entries;
    LinesFromContains(t, 0, i);
    forall j | 0 <= j < |es|
      ensures EntryLine(ext, es, j) in TreeLines(t)
      ensures es[j].Annotated? ==> forall k :: 0 <= k < |es[j].symbols| ==> SymbolLine(ext, es[j].symbols, k) in TreeLines(t)
    {
      EntriesFromContains(ext, es, 0, j);
      if es[j].Annotated? {
        forall k | 0 <= k < |es[j].symbols| ensures SymbolLine(ext, es[j].symbols, k) in TreeLines(t) {
          assert SymbolLines(ext, es[j].symbols)[k] == SymbolLine(ext, es[j].symbols, k);
        }
      }
    }
  }

  /** Without annotations, a bucket draws one line per file, in order, "└── " on the last. */
  lemma {:induction false} PlainEntries(ext: string, es: seq<Entry>, j: nat)
    requires j <= |es|
    requires forall m :: j <= m < |es| ==> es[m].Plain?
    ensures EntriesFrom(ext, es, j) == seq(|es| - j, m requires 0 <= m < |es| - j => ext + Connector(j + m == |es| - 1) + es[j + m].name)
    decreases |es| - j
  {
    if j < |es| {
      PlainEntries(ext, es, j + 1);
      var r := EntriesFrom(ext, es, j + 1);
      var whole := EntriesFrom(ext, es, j);
      var target := seq(|es| - j, m requires 0 <= m < |es| - j => ext + Connector(j + m == |es| - 1) + es[j + m].name);
      assert whole == [EntryLine(ext, es, j)] + r;
      assert |whole| == |target|;
      forall m | 0 <= m < |es| - j ensures whole[m] == target[m] {
        if m > 0 {
          assert whole[m] == r[m - 1];
        }
      }
      assert whole == target;
    }
  }

  /** No name in the tree holds a newline. */
  predicate OneLineNames(t: Tree)
  {
    forall i :: 0 <= i < |t| ==> '\n' !in t[i].key && OneLineEntries(t[i].entries)
  }

  predicate OneLineEntries(es: seq<Entry>)
  {
    forall j :: 0 <= j < |es| ==>
      && '\n' !in es[j].name
      && (es[j].Annotated? ==> forall k :: 0 <= k < |es[j].symbols| ==> '\n' !in es[j].symbols[k])
  }

  lemma {:induction false} UnlinesSplit(ls: seq<string>)
    requires forall i :: 0 <= i < |ls| ==> '\n' !in ls[i]
    ensures SplitOn(Unlines(ls), '\n') == ls + [""]
    decreases |ls|
  {
    if ls != [] {
      UnlinesSplit(ls[1..]);
      SplitPeel(ls[0], '\n', Unlines(ls[1..]));
      ConcatAssoc([ls[0]], ls[1..], [""]);
      assert ls == [ls[0]] + ls[1..];
    }
  }

  lemma SuffixChars(p: string, b: string, c: char)
    requires EndsWith(p, b) && c !in p
    ensures c !in b
  {
    assert b == p[|p| - |b|..];
    forall m | 0 <= m < |b| ensures b[m] != c {
      assert b[m] == p[|p| - |b| + m];
    }
  }

  lemma {:induction false} EntriesOneLine(ext: string, es: seq<Entry>, j: nat)
    requires '\n' !in ext && OneLineEntries(es)
    ensures forall l :: l in EntriesFrom(ext, es, j) ==> '\n' !in l
    decreases |es| - j
  {
    if j < |es| {
      EntriesOneLine(ext, es, j + 1);
      assert '\n' !in Connector(j == |es| - 1);
      if es[j].Annotated? {
        var syms := es[j].symbols;
        forall k | 0 <= k < |syms| ensures '\n' !in SymbolLine(ext, syms, k) {
          assert '\n' !in SymbolConnector(k == |syms| - 1);
        }
      }
    }
  }

  lemma HeadingOneLine(t: Tree, i: nat)
    requires i < |t| && '\n' !in t[i].key
    ensures '\n' !in Heading(t, i)
  {
    SuffixChars(t[i].key, Basename(t[i].key), '\n');
    assert '\n' !in Connector(i == |t| - 1);
  }

  lemma BucketOneLine(t: Tree, i: nat)
    requires i < |t| && '\n' !in t[i].key && OneLineEntries(t[i].entries)
    ensures forall l :: l in BucketLines(t, i) ==> '\n' !in l
  {
    if t[i].key != RootKey {
      HeadingOneLine(t, i);
      assert '\n' !in BucketExtension(t, i);
      EntriesOneLine(BucketExtension(t, i), t[i].entries, 0);
    }
  }

  lemma {:induction false} LinesOneLine(t: Tree, i: nat)
    requires OneLineNames(t)
    ensures forall l :: l in LinesFrom(t, i) ==> '\n' !in l
    decreases |t| - i
  {
    if i < |t| {
      LinesOneLine(t, i + 1);
      BucketOneLine(t, i);
    }
  }

  /** The drawing splits back into its lines at the newlines, with an empty tail. */
  lemma TreeStringLines(t: Tree)
    requires OneLineNames(t)
    ensures SplitOn(TreeString(t), '\n') == TreeLines(t) + [""]
  {
    LinesOneLine(t, 0);
    UnlinesSplit(TreeLines(t));
  }

  /** The lines an entry contributes below its own: one per symbol when annotated. */
  function SymbolCount(e: Entry): nat
  {
    if e.Annotated? then |e.symbols| else 0
  }

  /** Entries j.. of a bucket: one line each plus their symbol lines. */
  function EntriesCount(es: seq<Entry>, j: nat): nat
    decreases |es| - j
  {
    if j >= |es| then 0 else 1 + SymbolCount(es[j]) + EntriesCount(es, j + 1)
  }

  /** Buckets i.. of a tree: a heading and the entry lines of every bucket other than 'root'. */
  function LineCount(t: Tree, i: nat): nat
    decreases |t| - i
  {
    if i >= |t| then 0
    else (if t[i].key == RootKey then 0 else 1 + EntriesCount(t[i].entries, 0)) + LineCount(t, i + 1)
  }

  lemma {:induction false} EntriesFromCount(ext: string, es: seq<Entry>, j: nat)
    ensures |EntriesFrom(ext, es, j)| == EntriesCount(es, j)
    decreases |es| - j
  {
    if j < |es| {
      EntriesFromCount(ext, es, j + 1);
    }
  }

  lemma {:induction false} LinesFromCount(t: Tree, i: nat)
    ensures |LinesFrom(t, i)| == LineCount(t, i)
    decreases |t| - i
  {
    if i < |t| {
      LinesFromCount(t, i + 1);
      EntriesFromCount(BucketExtension(t, i), t[i].entries, 0);
    }
  }

  /**
   * The drawing has one newline per line: for every bucket other than
   * 'root', one for the heading, one per entry and one per symbol of an
   * annotated entry.
   */
  lemma DrawingLineCount(t: Tree)
    requires OneLineNames(t)
    ensures Count(TreeString(t), '\n') == LineCount(t, 0)
  {
    TreeStringLines(t);
    LinesFromCount(t, 0);
  }
}
