/**
 * The few pieces of Python's string and posixpath library that the exporter
 * relies on: startswith/endswith, str.split with a one-character separator,
 * rfind, os.path.basename, os.path.splitext and os.path.join.
 */
module Strings {

  /** Sequence concatenation is associative; stated once so that proofs need not rediscover it. */
  lemma ConcatAssoc<T>(a: seq<T>, b: seq<T>, c: seq<T>)
    ensures (a + b) + c == a + (b + c)
  {
  }

  predicate StartsWith(s: string, prefix: string)
  {
    |prefix| <= |s| && s[..|prefix|] == prefix
  }

  predicate EndsWith(s: string, suffix: string)
  {
    |suffix| <= |s| && s[|s| - |suffix|..] == suffix
  }

  /** A string ends with the last character of any non-empty suffix of it. */
  lemma EndsWithLast(s: string, suffix: string)
    ensures EndsWith(s, suffix) && suffix != [] ==> s[|s| - 1] == suffix[|suffix| - 1]
  {
    if EndsWith(s, suffix) && suffix != [] {
      assert s[|s| - 1] == s[|s| - |suffix|..][|suffix| - 1];
    }
  }

  /** Number of occurrences of c in s. */
  function Count(s: string, c: char): nat
  {
    if s == [] then 0 else (if s[0] == c then 1 else 0) + Count(s[1..], c)
  }

  /** Python's s.split(c): the pieces between occurrences of c, always at least one. */
  function SplitOn(s: string, c: char): (parts: seq<string>)
    ensures |parts| == Count(s, c) + 1
    ensures forall i :: 0 <= i < |parts| ==> c !in parts[i]
    decreases |s|
  {
    if s == [] then [""]
    else
      var rest := SplitOn(s[1..], c);
      if s[0] == c then [""] + rest else [[s[0]] + rest[0]] + rest[1..]
  }

  /** c.join(parts) for a non-empty list of parts. */
  function JoinWith(parts: seq<string>, c: char): string
    requires |parts| >= 1
  {
    if |parts| == 1 then parts[0] else parts[0] + [c] + JoinWith(parts[1..], c)
  }

  /** Joining the pieces of a split gives back the string. */
  lemma {:induction false} JoinSplit(s: string, c: char)
    ensures JoinWith(SplitOn(s, c), c) == s
    decreases |s|
  {
    if s != [] {
      JoinSplit(s[1..], c);
      var rest := SplitOn(s[1..], c);
      if s[0] == c {
        assert ([""] + rest)[1..] == rest;
        assert s == [c] + s[1..];
      } else if |rest| == 1 {
        assert s == [s[0]] + s[1..];
      } else {
        var p := [[s[0]] + rest[0]] + rest[1..];
        assert p[1..] == rest[1..];
        assert JoinWith(rest, c) == rest[0] + [c] + JoinWith(rest[1..], c);
        assert s == [s[0]] + s[1..];
      }
    }
  }

  /** A string without the separator splits into itself. */
  lemma {:induction false} SplitWithout(s: string, c: char)
    requires c !in s
    ensures SplitOn(s, c) == [s]
    decreases |s|
  {
    if s != [] {
      assert c !in s[1..];
      SplitWithout(s[1..], c);
      assert s == [s[0]] + s[1..];
    }
  }

  /** Splitting "a" + c + rest, where a has no separator, peels off a. */
  lemma {:induction false} SplitPeel(a: string, c: char, rest: string)
    requires c !in a
    ensures SplitOn(a + [c] + rest, c) == [a] + SplitOn(rest, c)
    decreases |a|
  {
    if a == [] {
      assert a + [c] + rest == [c] + rest;
      assert ([c] + rest)[1..] == rest;
    } else {
      var s := a + [c] + rest;
      assert s[0] == a[0] && s[1..] == a[1..] + [c] + rest;
      assert c !in a[1..];
      SplitPeel(a[1..], c, rest);
      assert a == [a[0]] + a[1..];
    }
  }

  /** Splitting a join of separator-free parts gives back the parts. */
  lemma {:induction false} SplitJoin(parts: seq<string>, c: char)
    requires |parts| >= 1
    requires forall i :: 0 <= i < |parts| ==> c !in parts[i]
    ensures SplitOn(JoinWith(parts, c), c) == parts
    decreases |parts|
  {
    if |parts| == 1 {
      SplitWithout(parts[0], c);
    } else {
      SplitJoin(parts[1..], c);
      SplitPeel(parts[0], c, JoinWith(parts[1..], c));
      assert parts == [parts[0]] + parts[1..];
    }
  }

  /** A join starts with its first part. */
  lemma {:induction false} JoinStartsWithFirst(parts: seq<string>, c: char)
    requires |parts| >= 1
    ensures StartsWith(JoinWith(parts, c), parts[0])
  {
    var j := JoinWith(parts, c);
    if |parts| > 1 {
      assert j == parts[0] + ([c] + JoinWith(parts[1..], c));
    }
    assert j[..|parts[0]|] == parts[0];
  }

  /** str.rfind(c): the last index holding c, or -1. */
  function RFind(s: string, c: char): (i: int)
    ensures -1 <= i < |s|
    ensures i >= 0 ==> s[i] == c
    ensures forall j :: i < j < |s| ==> s[j] != c
    decreases |s|
  {
    if s == [] then -1
    else if s[|s| - 1] == c then |s| - 1
    else RFind(s[..|s| - 1], c)
  }

  /** The last index holding c is the one no later index holds. */
  lemma RFindLast(s: string, c: char, i: nat)
    requires i < |s| && s[i] == c
    requires forall m :: i < m < |s| ==> s[m] != c
    ensures RFind(s, c) == i
  {
    var r := RFind(s, c);
    assert !(r < i);
  }

  /** What follows the last c of s holds no c. */
  lemma AfterLastFree(s: string, c: char, i: int)
    requires -1 <= i < |s|
    requires forall j :: i < j < |s| ==> s[j] != c
    ensures c !in s[i + 1..]
  {
    var b := s[i + 1..];
    forall j | 0 <= j < |b| ensures b[j] != c {
      assert b[j] == s[i + 1 + j];
    }
  }

  /** What follows index i is a suffix, and s[i] comes just before it. */
  lemma AfterIndex(s: string, i: int)
    requires -1 <= i < |s|
    ensures EndsWith(s, s[i + 1..])
    ensures |s[i + 1..]| < |s| ==> s[|s| - |s[i + 1..]| - 1] == s[i]
  {
    assert |s[i + 1..]| == |s| - i - 1;
  }

  /** os.path.basename: everything after the last '/'. */
  function Basename(p: string): (b: string)
    ensures '/' !in b
    ensures EndsWith(p, b)
    ensures '/' !in p ==> b == p
    ensures |b| < |p| ==> p[|p| - |b| - 1] == '/'
  {
    var i := RFind(p, '/');
    AfterLastFree(p, '/', i);
    AfterIndex(p, i);
    p[i + 1..]
  }

  /** Some character of s[lo..hi] is not a dot. */
  predicate HasNonDot(s: string, lo: int, hi: int)
    requires 0 <= lo && hi <= |s|
  {
    exists k :: lo <= k < hi && s[k] != '.'
  }

  /**
   * posixpath.splitext: the extension runs from the last dot of the last
   * path component, unless only dots precede that dot in the component.
   */
  function SplitExt(p: string): (r: (string, string))
    ensures r.0 + r.1 == p
    ensures r.1 != "" ==> r.1[0] == '.' && '.' !in r.1[1..] && '/' !in r.1
    ensures r.1 != "" ==> exists k :: 0 <= k < |r.0| && r.0[k] != '.' && '/' !in r.0[k..]
  {
    var sep := RFind(p, '/');
    var dot := RFind(p, '.');
    if dot > sep && HasNonDot(p, sep + 1, dot) then
      var ext := p[dot..];
      assert forall j :: 1 <= j < |ext| ==> ext[j] == p[dot + j];
      assert forall j :: 0 <= j < |ext| ==> ext[j] == p[dot + j];
      var k :| sep + 1 <= k < dot && p[k] != '.';
      assert forall j :: 0 <= j < |p[..dot][k..]| ==> p[..dot][k..][j] == p[k + j];
      assert p[..dot][k] != '.';
      (p[..dot], ext)
    else
      (p, "")
  }

  /** posixpath.join(a, b) for two components. */
  function PathJoin(a: string, b: string): string
  {
    if StartsWith(b, "/") then b
    else if a == "" || EndsWith(a, "/") then a + b
    else a + "/" + b
  }

  /** The last index of c in a string that ends with c followed by a c-free tail. */
  lemma RFindBefore(q: string, c: char, b: string)
    requires c !in b
    ensures RFind(q + [c] + b, c) == |q|
  {
    var p := q + [c] + b;
    var i := RFind(p, c);
    assert p[|q|] == c;
  }

  /**
   * Joining a directory and a name without '/' gives a path that ends
   * with the name, whose basename is the name again, and that starts
   * with the directory.
   */
  lemma PathJoinName(a: string, b: string)
    requires '/' !in b
    ensures EndsWith(PathJoin(a, b), b)
    ensures Basename(PathJoin(a, b)) == b
    ensures StartsWith(PathJoin(a, b), a)
  {
    var r := PathJoin(a, b);
    assert |b| > 0 ==> b[..1][0] == b[0] && b[0] in b;
    if a == "" {
      assert r == b;
    } else if EndsWith(a, "/") {
      var q := a[..|a| - 1];
      assert a == q + ['/'];
      assert r == q + ['/'] + b;
      RFindBefore(q, '/', b);
      assert r[|q| + 1..] == b;
    } else {
      assert r == a + ['/'] + b;
      RFindBefore(a, '/', b);
      assert r[|a| + 1..] == b;
    }
    assert r[..|a|] == a;
    assert r[|r| - |b|..] == b;
  }
}
