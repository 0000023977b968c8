/**
 * map_functions_to_tree: every ".py" or ".js" entry of the tree is replaced
 * by the same name with its extracted symbol lines; other entries stay.
 */
module Annotation {
  import opened Wrappers
  import opened Strings
  import opened OrderedTree
  import opened Symbols

  /**
   * Reading and parsing the file at a path: the nodes ast.walk visits, or
   * None when open, read or ast.parse raises.
   */
  type PySource = string -> Option<seq<PyNode>>

  /** Reading a JavaScript file: the three match lists, or None when open or read raises. */
  type JsSource = string -> Option<JsMatches>

  predicate IsPython(name: string) { EndsWith(name, ".py") }
  predicate IsJs(name: string) { EndsWith(name, ".js") }

  predicate AllPlain(t: Tree)
  {
    forall i, j :: 0 <= i < |t| && 0 <= j < |t[i].entries| ==> t[i].entries[j].Plain?
  }

  /** One entry of bucket key; a failed read or parse of its file fails the whole run with that path. */
  function AnnotateEntry(key: string, e: Entry, py: PySource, js: JsSource): Result<Entry, string>
  {
    var path := FilePath(key, e.name);
    if IsPython(e.name) then
      match py(path)
      case None => Failure(path)
      case Some(nodes) => Success(Annotated(e.name, PyElements(nodes)))
    else if IsJs(e.name) then
      match js(path)
      case None => Failure(path)
      case Some(m) => Success(Annotated(e.name, JsElements(m)))
    else
      Success(e)
  }

  /** Put already mapped entries in front of the outcome for the rest. */
  function Prepend<T>(done: seq<T>, rest: Result<seq<T>, string>): Result<seq<T>, string>
  {
    match rest
    case Failure(p) => Failure(p)
    case Success(xs) => Success(done + xs)
  }

  function AnnotateEntries(key: string, es: seq<Entry>, py: PySource, js: JsSource): Result<seq<Entry>, string>
  {
    if es == [] then Success([])
    else
      match AnnotateEntry(key, es[0], py, js)
      case Failure(p) => Failure(p)
      case Success(x) => Prepend([x], AnnotateEntries(key, es[1..], py, js))
  }

  function AnnotateBuckets(t: Tree, py: PySource, js: JsSource): Result<Tree, string>
  {
    if t == [] then Success([])
    else
      match AnnotateEntries(t[0].key, t[0].entries, py, js)
      case Failure(p) => Failure(p)
      case Success(xs) => Prepend([Bucket(t[0].key, xs)], AnnotateBuckets(t[1..], py, js))
  }

  lemma PrependAssoc<T>(a: seq<T>, b: seq<T>, r: Result<seq<T>, string>)
    ensures Prepend(a, Prepend(b, r)) == Prepend(a + b, r)
  {
    if r.Success? { ConcatAssoc(a, b, r.value); }
  }

  lemma PrependEmpty<T>(r: Result<seq<T>, string>)
    ensures Prepend([], r) == r
  {
    if r.Success? { assert [] + r.value == r.value; }
  }

  /** map_functions_to_tree, overwriting each bucket of the tree in turn. */
  method MapFunctionsToTree(t: Tree, py: PySource, js: JsSource) returns (r: Result<Tree, string>)
    requires AllPlain(t)
    ensures r == AnnotateBuckets(t, py, js)
  {
    var tree := t;
    assert t[0..] == t && tree[..0] == [];
    PrependEmpty(AnnotateBuckets(t, py, js));
    for i := 0 to |t|
      invariant |tree| == |t| && tree[i..] == t[i..]
      invariant AnnotateBuckets(t, py, js) == Prepend(tree[..i], AnnotateBuckets(t[i..], py, js))
    {
      var directory := t[i].key;
      var files := t[i].entries;
      var mapped: seq<Entry> := [];
      assert t[i..][0] == t[i] && t[i..][1..] == t[i + 1..];
      assert files[0..] == files;
      PrependEmpty(AnnotateEntries(directory, files, py, js));
      for j := 0 to |files|
        invariant AnnotateEntries(directory, files, py, js) == Prepend(mapped, AnnotateEntries(directory, files[j..], py, js))
      {
        var file := files[j];
        assert files[j..][0] == file && files[j..][1..] == files[j + 1..];
        var path := FilePath(directory, file.name);
        var x: Entry;
        if IsPython(file.name) {
          var nodes := py(path);
          if nodes.None? {
            r := Failure(path);
            assert AnnotateBuckets(t[i..], py, js) == Failure(path);
            return;
          }
          var elements := ExtractPythonElements(nodes.value);
          x := Annotated(file.name, elements);
        } else if IsJs(file.name) {
          var matches := js(path);
          if matches.None? {
            r := Failure(path);
            assert AnnotateBuckets(t[i..], py, js) == Failure(path);
            return;
          }
          x := Annotated(file.name, JsElements(matches.value));
        } else {
          x := file;
        }
        assert AnnotateEntry(directory, file, py, js) == Success(x);
        PrependAssoc(mapped, [x], AnnotateEntries(directory, files[j + 1..], py, js));
        mapped := mapped + [x];
      }
      assert files[|files|..] == [] && mapped + [] == mapped;
      assert AnnotateEntries(directory, files, py, js) == Success(mapped);
      assert AnnotateBuckets(t[i..], py, js) == Prepend([Bucket(directory, mapped)], AnnotateBuckets(t[i + 1..], py, js));
      ghost var prefix := tree[..i];
      PrependAssoc(prefix, [Bucket(directory, mapped)], AnnotateBuckets(t[i + 1..], py, js));
      tree := tree[i := Bucket(directory, mapped)];
      assert tree[..i + 1] == prefix + [Bucket(directory, mapped)];
      assert tree[i + 1..] == t[i + 1..];
    }
    assert t[|t|..] == [] && tree[..|t|] == tree && tree + [] == tree;
    r := Success(tree);
  }

  /**
   * The entries of one bucket are mapped one by one: the bucket succeeds
   * exactly when every entry does, keeps its length and order, and
   * otherwise fails with the path of its first failing entry.
   */
  lemma {:induction false} AnnotateEntriesPointwise(key: string, es: seq<Entry>, py: PySource, js: JsSource)
    ensures AnnotateEntries(key, es, py, js).Success? <==>
      forall j :: 0 <= j < |es| ==> AnnotateEntry(key, es[j], py, js).Success?
    ensures AnnotateEntries(key, es, py, js).Success? ==>
      var xs := AnnotateEntries(key, es, py, js).value;
      |xs| == |es| && forall j :: 0 <= j < |es| ==> AnnotateEntry(key, es[j], py, js) == Success(xs[j])
    ensures AnnotateEntries(key, es, py, js).Failure? ==>
      exists j :: 0 <= j < |es| && AnnotateEntry(key, es[j], py, js) == Failure(AnnotateEntries(key, es, py, js).error)
        && forall j' :: 0 <= j' < j ==> AnnotateEntry(key, es[j'], py, js).Success?
    decreases |es|
  {
    if es != [] {
      var head := AnnotateEntry(key, es[0], py, js);
      var r := AnnotateEntries(key, es[1..], py, js);
      var whole := AnnotateEntries(key, es, py, js);
      assert whole == if head.Failure? then Failure(head.error) else Prepend([head.value], r);
      AnnotateEntriesPointwise(key, es[1..], py, js);
      assert forall j :: 0 < j < |es| ==> es[1..][j - 1] == es[j];
      if head.Success? && r.Failure? {
        var j :| 0 <= j < |es[1..]| && AnnotateEntry(key, es[1..][j], py, js) == Failure(r.error)
          && forall j' :: 0 <= j' < j ==> AnnotateEntry(key, es[1..][j'], py, js).Success?;
        assert AnnotateEntry(key, es[j + 1], py, js) == Failure(r.error);
      }
      if head.Success? && r.Success? {
        assert whole.value == [head.value] + r.value;
      }
    }
  }

  /** The same, one level up: the tree is mapped bucket by bucket, keys unchanged. */
  lemma {:induction false} AnnotateBucketsPointwise(t: Tree, py: PySource, js: JsSource)
    ensures AnnotateBuckets(t, py, js).Success? <==>
      forall i :: 0 <= i < |t| ==> AnnotateEntries(t[i].key, t[i].entries, py, js).Success?
    ensures AnnotateBuckets(t, py, js).Success? ==>
      var r := AnnotateBuckets(t, py, js).value;
      |r| == |t| && forall i :: 0 <= i < |t| ==>
        r[i].key == t[i].key && AnnotateEntries(t[i].key, t[i].entries, py, js) == Success(r[i].entries)
    ensures AnnotateBuckets(t, py, js).Failure? ==>
      exists i :: 0 <= i < |t| && AnnotateEntries(t[i].key, t[i].entries, py, js) == Failure(AnnotateBuckets(t, py, js).error)
        && forall i' :: 0 <= i' < i ==> AnnotateEntries(t[i'].key, t[i'].entries, py, js).Success?
    decreases |t|
  {
    if t != [] {
      AnnotateBucketsPointwise(t[1..], py, js);
      assert forall i :: 0 < i < |t| ==> t[1..][i - 1] == t[i];
      var r := AnnotateBuckets(t[1..], py, js);
      if AnnotateEntries(t[0].key, t[0].entries, py, js).Success? && r.Failure? {
        var i :| 0 <= i < |t[1..]| && AnnotateEntries(t[1..][i].key, t[1..][i].entries, py, js) == Failure(r.error)
          && forall i' :: 0 <= i' < i ==> AnnotateEntries(t[1..][i'].key, t[1..][i'].entries, py, js).Success?;
        assert AnnotateEntries(t[i + 1].key, t[i + 1].entries, py, js) == Failure(r.error);
      }
    }
  }

  /**
   * Annotation preserves the keys, their order, and each bucket's entry
   * count, order and names; an entry becomes Annotated exactly when its name
   * ends in ".py" or ".js", with PyElements of its parsed nodes or
   * JsElements of its matches as the symbol lines.
   */
  lemma AnnotateShape(t: Tree, py: PySource, js: JsSource)
    requires AllPlain(t)
    requires AnnotateBuckets(t, py, js).Success?
    ensures var r := AnnotateBuckets(t, py, js).value;
      && |r| == |t|
      && (forall i :: 0 <= i < |t| ==> r[i].key == t[i].key && |r[i].entries| == |t[i].entries|)
      && (forall i, j :: 0 <= i < |t| && 0 <= j < |t[i].entries| ==>
            var e := t[i].entries[j];
            var x := r[i].entries[j];
            var path := FilePath(t[i].key, e.name);
            && x.name == e.name
            && (x.Annotated? <==> IsPython(e.name) || IsJs(e.name))
            && (IsPython(e.name) ==> py(path).Some? && x.symbols == PyElements(py(path).value))
            && (IsJs(e.name) && !IsPython(e.name) ==> js(path).Some? && x.symbols == JsElements(js(path).value)))
  {
    AnnotateBucketsPointwise(t, py, js);
    var r := AnnotateBuckets(t, py, js).value;
    forall i | 0 <= i < |t|
      ensures r[i].key == t[i].key && |r[i].entries| == |t[i].entries|
      ensures forall j :: 0 <= j < |t[i].entries| ==> AnnotateEntry(t[i].key, t[i].entries[j], py, js) == Success(r[i].entries[j])
    {
      AnnotateEntriesPointwise(t[i].key, t[i].entries, py, js);
    }
  }

  /**
   * A run of the annotation fails exactly when some ".py" entry's file or
   * some other ".js" entry's file cannot be read (or parsed), and then with
   * the path of such a file.
   */
  lemma AnnotateFails(t: Tree, py: PySource, js: JsSource)
    ensures AnnotateBuckets(t, py, js).Failure? <==>
      exists i, j :: 0 <= i < |t| && 0 <= j < |t[i].entries| && Unreadable(t[i].key, t[i].entries[j].name, py, js)
    ensures AnnotateBuckets(t, py, js).Failure? ==>
      exists i, j :: 0 <= i < |t| && 0 <= j < |t[i].entries| && Unreadable(t[i].key, t[i].entries[j].name, py, js)
        && AnnotateBuckets(t, py, js).error == FilePath(t[i].key, t[i].entries[j].name)
  {
    AnnotateBucketsPointwise(t, py, js);
    forall i | 0 <= i < |t| {
      AnnotateEntriesPointwise(t[i].key, t[i].entries, py, js);
    }
    if AnnotateBuckets(t, py, js).Failure? {
      var i :| 0 <= i < |t| && AnnotateEntries(t[i].key, t[i].entries, py, js) == Failure(AnnotateBuckets(t, py, js).error);
      var j :| 0 <= j < |t[i].entries| && AnnotateEntry(t[i].key, t[i].entries[j], py, js) == Failure(AnnotateBuckets(t, py, js).error);
      assert Unreadable(t[i].key, t[i].entries[j].name, py, js);
    }
  }

  /** The file of a ".py" or ".js" entry cannot be read or parsed. */
  predicate Unreadable(key: string, name: string, py: PySource, js: JsSource)
  {
    var path := FilePath(key, name);
    (IsPython(name) && py(path).None?) || (!IsPython(name) && IsJs(name) && js(path).None?)
  }
}
