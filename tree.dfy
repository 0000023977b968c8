/**
 * The snapshot tree: an insertion-ordered map from a directory key to the
 * entries found there.  The key "root" holds top-level loose files.
 */
module OrderedTree {
  import opened Strings

  /** A bare file name, or a file name with the symbol lines extracted from it. */
  datatype Entry = Plain(name: string) | Annotated(name: string, symbols: seq<string>)

  datatype Bucket = Bucket(key: string, entries: seq<Entry>)

  /** An insertion-ordered dictionary: the order of the buckets is the insertion order. */
  type Tree = seq<Bucket>

  const RootKey: string := "root"
  const LogsKey: string := "logs"

  predicate HasKey(t: Tree, k: string)
  {
    exists i :: 0 <= i < |t| && t[i].key == k
  }

  predicate DistinctKeys(t: Tree)
  {
    forall i, j :: 0 <= i < j < |t| ==> t[i].key != t[j].key
  }

  /** Every key of t keeps its position in r, and r may add keys after them. */
  predicate KeysExtend(t: Tree, r: Tree)
  {
    |t| <= |r| && forall i :: 0 <= i < |t| ==> r[i].key == t[i].key
  }

  /** The lookup tree[k]; a missing key reads as an empty list. */
  function Lookup(t: Tree, k: string): (es: seq<Entry>)
    ensures !HasKey(t, k) ==> es == []
    ensures forall i :: 0 <= i < |t| && t[i].key == k && (forall j :: 0 <= j < i ==> t[j].key != k) ==> es == t[i].entries
  {
    if t == [] then []
    else if t[0].key == k then t[0].entries
    else Lookup(t[1..], k)
  }

  /** With distinct keys, looking up a bucket's own key gives its entries. */
  lemma LookupDistinct(t: Tree, i: nat)
    requires DistinctKeys(t) && i < |t|
    ensures Lookup(t, t[i].key) == t[i].entries
  {
  }

  /** `if k not in tree: tree[k] = []`. */
  function EnsureKey(t: Tree, k: string): (r: Tree)
    ensures HasKey(r, k)
    ensures KeysExtend(t, r)
    ensures HasKey(t, k) ==> r == t
    ensures !HasKey(t, k) ==> |r| == |t| + 1 && r[|t|] == Bucket(k, [])
    ensures forall i :: 0 <= i < |t| ==> r[i] == t[i]
    ensures forall k' :: HasKey(r, k') <==> HasKey(t, k') || k' == k
    ensures DistinctKeys(t) ==> DistinctKeys(r)
    ensures forall k' :: Lookup(r, k') == Lookup(t, k')
  {
    if HasKey(t, k) then t
    else
      var r := t + [Bucket(k, [])];
      assert r[|t|].key == k;
      LookupAppendBucket(t, Bucket(k, []));
      r
  }

  lemma {:induction false} LookupAppendBucket(t: Tree, b: Bucket)
    ensures forall k' :: Lookup(t + [b], k') == if HasKey(t, k') then Lookup(t, k') else if b.key == k' then b.entries else []
    decreases |t|
  {
    if t != [] {
      assert (t + [b])[1..] == t[1..] + [b];
      LookupAppendBucket(t[1..], b);
      forall k' ensures HasKey(t, k') <==> t[0].key == k' || HasKey(t[1..], k') {
        if HasKey(t, k') {
          var i :| 0 <= i < |t| && t[i].key == k';
          if i > 0 { assert t[1..][i - 1].key == k'; }
        }
        if HasKey(t[1..], k') {
          var i :| 0 <= i < |t[1..]| && t[1..][i].key == k';
          assert t[i + 1].key == k';
        }
      }
    }
  }

  /** `tree[k].append(e)`: the bucket with key k gets e at its end. */
  function Append(t: Tree, k: string, e: Entry): (r: Tree)
    requires HasKey(t, k)
    ensures |r| == |t|
    ensures forall i :: 0 <= i < |t| ==> r[i].key == t[i].key
    ensures forall i :: 0 <= i < |t| ==> r[i].entries == if t[i].key == k then t[i].entries + [e] else t[i].entries
    ensures KeysExtend(t, r) && KeysExtend(r, t)
    ensures forall k' :: HasKey(r, k') <==> HasKey(t, k')
    ensures DistinctKeys(t) ==> DistinctKeys(r)
    ensures forall k' :: Lookup(r, k') == if k' == k then Lookup(t, k') + [e] else Lookup(t, k')
  {
    var r := seq(|t|, i requires 0 <= i < |t| => if t[i].key == k then Bucket(k, t[i].entries + [e]) else t[i]);
    LookupAppend(t, k, e, r);
    r
  }

  lemma LookupAppend(t: Tree, k: string, e: Entry, r: Tree)
    requires HasKey(t, k)
    requires |r| == |t|
    requires forall i :: 0 <= i < |t| ==> r[i] == if t[i].key == k then Bucket(k, t[i].entries + [e]) else t[i]
    ensures forall k' :: Lookup(r, k') == if k' == k then Lookup(t, k') + [e] else Lookup(t, k')
  {
    forall k' ensures Lookup(r, k') == if k' == k then Lookup(t, k') + [e] else Lookup(t, k') {
      LookupAppendAt(t, k, e, r, k');
    }
  }

  lemma {:induction false} LookupAppendAt(t: Tree, k: string, e: Entry, r: Tree, k': string)
    requires |r| == |t|
    requires forall i :: 0 <= i < |t| ==> r[i] == if t[i].key == k then Bucket(k, t[i].entries + [e]) else t[i]
    ensures Lookup(r, k') == if k' == k && HasKey(t, k) then Lookup(t, k') + [e] else Lookup(t, k')
    decreases |t|
  {
    if t != [] && t[0].key != k' {
      LookupAppendAt(t[1..], k, e, r[1..], k');
      if k' == k {
        if HasKey(t, k) {
          var i :| 0 <= i < |t| && t[i].key == k;
          assert t[1..][i - 1].key == k;
        }
        if HasKey(t[1..], k) {
          var i :| 0 <= i < |t[1..]| && t[1..][i].key == k;
          assert t[i + 1].key == k;
        }
      }
    }
  }

  /** The keys of t, in insertion order: what iterating over the dictionary yields. */
  function KeysOf(t: Tree): (ks: seq<string>)
    ensures |ks| == |t|
    ensures forall i :: 0 <= i < |t| ==> ks[i] == t[i].key
  {
    seq(|t|, i requires 0 <= i < |t| => t[i].key)
  }

  lemma KeysOfHasKey(t: Tree, k: string)
    ensures HasKey(t, k) <==> k in KeysOf(t)
  {
    if k in KeysOf(t) {
      var i :| 0 <= i < |t| && KeysOf(t)[i] == k;
      assert t[i].key == k;
    }
  }

  /** Two trees whose keys extend each other have the same key sequence. */
  lemma SameKeys(t: Tree, r: Tree)
    requires KeysExtend(t, r) && |r| == |t|
    ensures KeysOf(r) == KeysOf(t)
  {
  }

  /** Inserting k into an insertion-ordered key sequence: appended only when absent. */
  function Insert(ks: seq<string>, k: string): seq<string>
  {
    if k in ks then ks else ks + [k]
  }

  /** EnsureKey adds k at the end of the key order exactly when k is new. */
  lemma EnsureKeyOrder(t: Tree, k: string)
    ensures KeysOf(EnsureKey(t, k)) == Insert(KeysOf(t), k)
  {
    KeysOfHasKey(t, k);
    if !HasKey(t, k) {
      assert KeysOf(EnsureKey(t, k)) == KeysOf(t) + [k];
    }
  }

  /** os.path.join(directory, name), except that bucket "root" holds bare names. */
  function FilePath(key: string, name: string): string
  {
    if key == RootKey then name else PathJoin(key, name)
  }
}
