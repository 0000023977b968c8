/**
 * Symbol extraction: the assembly of "function: ", "class: " and
 * "  method: " lines.  For Python the syntax tree walk is given as the
 * sequence of visited nodes; for JavaScript the three regular-expression
 * match lists are given.  Neither the parser nor the regexes are modelled.
 */
module Symbols {
  import opened Strings

  /**
   * What the Python loop looks at in a visited node: a function definition,
   * a class definition with the statements of its own body, or anything else.
   */
  datatype PyNode = FunctionDef(name: string) | ClassDef(name: string, body: seq<Stmt>) | OtherNode

  /** A statement directly in a class body: a function definition (a method) or anything else. */
  datatype Stmt = MethodDef(name: string) | OtherStmt

  /** The three lists that re.findall returns for one JavaScript file. */
  datatype JsMatches = JsMatches(functions: seq<string>, classes: seq<string>, methods: seq<string>)

  const FunctionTag: string := "function: "
  const ClassTag: string := "class: "
  const MethodTag: string := "  method: "

  // ---------------------------------------------------------------- Python

  /** The method lines of a class body: one per direct function definition, in body order. */
  function MethodLines(body: seq<Stmt>): seq<string>
  {
    if body == [] then []
    else
      var last := body[|body| - 1];
      MethodLines(body[..|body| - 1]) + (if last.MethodDef? then [MethodTag + last.name] else [])
  }

  /** The lines emitted for one visited node. */
  function NodeLines(n: PyNode): seq<string>
  {
    match n
    case FunctionDef(x) => [FunctionTag + x]
    case ClassDef(x, body) => [ClassTag + x] + MethodLines(body)
    case OtherNode => []
  }

  /** The lines emitted for the visited nodes, in visiting order. */
  function PyElements(nodes: seq<PyNode>): seq<string>
  {
    if nodes == [] then [] else NodeLines(nodes[0]) + PyElements(nodes[1..])
  }

  /** The emission loop of extract_python_elements over the nodes that ast.walk visits. */
  method ExtractPythonElements(nodes: seq<PyNode>) returns (elements: seq<string>)
    ensures elements == PyElements(nodes)
  {
    elements := [];
    for i := 0 to |nodes|
      invariant elements + PyElements(nodes[i..]) == PyElements(nodes)
    {
      var node := nodes[i];
      var lines: seq<string> := [];
      if node.FunctionDef? {
        lines := [FunctionTag + node.name];
      } else if node.ClassDef? {
        lines := ClassElements(node.name, node.body);
      }
      assert lines == NodeLines(node);
      PyElementsSuffix(nodes, i);
      ConcatAssoc(elements, lines, PyElements(nodes[i + 1..]));
      elements := elements + lines;
    }
  }

  /** The lines one class definition contributes: its own line, then one per direct method. */
  method ClassElements(name: string, body: seq<Stmt>) returns (lines: seq<string>)
    ensures lines == [ClassTag + name] + MethodLines(body)
  {
    lines := [ClassTag + name];
    for j := 0 to |body|
      invariant lines == [ClassTag + name] + MethodLines(body[..j])
    {
      MethodLinesStep(body, j);
      if body[j].MethodDef? {
        lines := lines + [MethodTag + body[j].name];
      }
    }
    assert body[..|body|] == body;
  }

  lemma PyElementsSuffix(nodes: seq<PyNode>, i: nat)
    requires i < |nodes|
    ensures PyElements(nodes[i..]) == NodeLines(nodes[i]) + PyElements(nodes[i + 1..])
  {
    assert nodes[i..][1..] == nodes[i + 1..];
  }

  lemma MethodLinesStep(body: seq<Stmt>, j: nat)
    requires j < |body|
    ensures MethodLines(body[..j + 1]) == MethodLines(body[..j]) + (if body[j].MethodDef? then [MethodTag + body[j].name] else [])
  {
    assert body[..j + 1][..j] == body[..j];
  }

  /** Emission distributes over the visiting order: later nodes only add lines at the end. */
  lemma {:induction false} PyElementsAppend(a: seq<PyNode>, b: seq<PyNode>)
    ensures PyElements(a + b) == PyElements(a) + PyElements(b)
    decreases |a|
  {
    if a == [] {
      assert a + b == b;
    } else {
      assert (a + b)[1..] == a[1..] + b;
      PyElementsAppend(a[1..], b);
    }
  }

  // ------------------------------------------------------- line tags

  lemma TagCancel(tag: string, x: string, y: string)
    requires tag + x == tag + y
    ensures x == y
  {
    assert x == (tag + x)[|tag|..];
    assert y == (tag + y)[|tag|..];
  }

  /** The three tags start with different characters, so a line has at most one kind. */
  lemma TagsDiffer(x: string, y: string)
    ensures FunctionTag + x != ClassTag + y
    ensures FunctionTag + x != MethodTag + y
    ensures ClassTag + x != MethodTag + y
  {
    assert (FunctionTag + x)[0] == 'f';
    assert (ClassTag + x)[0] == 'c' && (ClassTag + y)[0] == 'c';
    assert (MethodTag + y)[0] == ' ';
  }

  /** A class body yields a method line for x exactly when x is one of its direct function definitions. */
  lemma {:induction false} MethodLinesIn(body: seq<Stmt>, line: string)
    ensures line in MethodLines(body) <==>
      exists j :: 0 <= j < |body| && body[j].MethodDef? && line == MethodTag + body[j].name
    decreases |body|
  {
    if body != [] {
      var init := body[..|body| - 1];
      MethodLinesIn(init, line);
      assert forall j :: 0 <= j < |init| ==> init[j] == body[j];
    }
  }

  lemma NodeLinesKinds(n: PyNode, x: string)
    ensures FunctionTag + x in NodeLines(n) <==> n == FunctionDef(x)
    ensures ClassTag + x in NodeLines(n) <==> n.ClassDef? && n.name == x
    ensures MethodTag + x in NodeLines(n) <==>
      n.ClassDef? && exists j :: 0 <= j < |n.body| && n.body[j] == MethodDef(x)
  {
    match n
    case FunctionDef(y) =>
      TagsDiffer(y, x);
      TagsDiffer(x, y);
      if FunctionTag + x == FunctionTag + y { TagCancel(FunctionTag, x, y); }
    case ClassDef(y, body) =>
      TagsDiffer(x, y);
      TagsDiffer(y, x);
      if ClassTag + x == ClassTag + y { TagCancel(ClassTag, x, y); }
      MethodLinesIn(body, FunctionTag + x);
      MethodLinesIn(body, ClassTag + x);
      MethodLinesIn(body, MethodTag + x);
      forall j | 0 <= j < |body| && body[j].MethodDef?
        ensures FunctionTag + x != MethodTag + body[j].name
        ensures ClassTag + x != MethodTag + body[j].name
        ensures MethodTag + x == MethodTag + body[j].name <==> body[j] == MethodDef(x)
      {
        TagsDiffer(x, body[j].name);
        if MethodTag + x == MethodTag + body[j].name { TagCancel(MethodTag, x, body[j].name); }
      }
    case OtherNode =>
  }

  /**
   * A "function: x" line is emitted exactly when a FunctionDef named x is
   * visited, a "class: x" line exactly when a ClassDef named x is, and a
   * "  method: x" line exactly when some visited class has a direct
   * function definition x in its body.
   */
  lemma PyElementsKinds(nodes: seq<PyNode>, x: string)
    ensures FunctionTag + x in PyElements(nodes) <==>
      exists i :: 0 <= i < |nodes| && nodes[i] == FunctionDef(x)
    ensures ClassTag + x in PyElements(nodes) <==>
      exists i :: 0 <= i < |nodes| && nodes[i].ClassDef? && nodes[i].name == x
    ensures MethodTag + x in PyElements(nodes) <==>
      exists i, j :: 0 <= i < |nodes| && nodes[i].ClassDef? && 0 <= j < |nodes[i].body| && nodes[i].body[j] == MethodDef(x)
  {
    PyFunctionsIn(nodes, x);
    PyClassesIn(nodes, x);
    PyMethodsIn(nodes, x);
  }

  /** The lines of the visited nodes are the first node's, then the rest's. */
  lemma PyElementsCons(nodes: seq<PyNode>, l: string)
    requires nodes != []
    ensures l in PyElements(nodes) <==> l in NodeLines(nodes[0]) || l in PyElements(nodes[1..])
  {
    assert PyElements(nodes) == NodeLines(nodes[0]) + PyElements(nodes[1..]);
  }

  lemma {:induction false} PyFunctionsIn(nodes: seq<PyNode>, x: string)
    ensures FunctionTag + x in PyElements(nodes) <==>
      exists i :: 0 <= i < |nodes| && nodes[i] == FunctionDef(x)
    decreases |nodes|
  {
    if nodes != [] {
      PyFunctionsIn(nodes[1..], x);
      NodeLinesKinds(nodes[0], x);
      PyElementsCons(nodes, FunctionTag + x);
      assert forall i :: 0 < i < |nodes| ==> nodes[1..][i - 1] == nodes[i];
    }
  }

  lemma {:induction false} PyClassesIn(nodes: seq<PyNode>, x: string)
    ensures ClassTag + x in PyElements(nodes) <==>
      exists i :: 0 <= i < |nodes| && nodes[i].ClassDef? && nodes[i].name == x
    decreases |nodes|
  {
    if nodes != [] {
      PyClassesIn(nodes[1..], x);
      NodeLinesKinds(nodes[0], x);
      PyElementsCons(nodes, ClassTag + x);
      assert forall i :: 0 < i < |nodes| ==> nodes[1..][i - 1] == nodes[i];
    }
  }

  lemma {:induction false} PyMethodsIn(nodes: seq<PyNode>, x: string)
    ensures MethodTag + x in PyElements(nodes) <==>
      exists i, j :: 0 <= i < |nodes| && nodes[i].ClassDef? && 0 <= j < |nodes[i].body| && nodes[i].body[j] == MethodDef(x)
    decreases |nodes|
  {
    if nodes != [] {
      PyMethodsIn(nodes[1..], x);
      NodeLinesKinds(nodes[0], x);
      PyElementsCons(nodes, MethodTag + x);
      assert forall i :: 0 < i < |nodes| ==> nodes[1..][i - 1] == nodes[i];
    }
  }

  // ------------------------------------------------------------ JavaScript

  /** [f"{tag}{n}" for n in names] */
  function TagAll(tag: string, names: seq<string>): (lines: seq<string>)
  {
    seq(|names|, i requires 0 <= i < |names| => tag + names[i])
  }

  /** [m for m in methods if m not in functions] */
  function Unshadowed(methods: seq<string>, functions: seq<string>): seq<string>
  {
    if methods == [] then []
    else (if methods[0] in functions then [] else [methods[0]]) + Unshadowed(methods[1..], functions)
  }

  /**
   * The list assembly of extract_js_elements: all function matches, then
   * all class matches, then the method matches not named like a function.
   */
  function JsElements(m: JsMatches): seq<string>
  {
    TagAll(FunctionTag, m.functions) + TagAll(ClassTag, m.classes)
      + TagAll(MethodTag, Unshadowed(m.methods, m.functions))
  }

  lemma {:induction false} UnshadowedIn(methods: seq<string>, functions: seq<string>, x: string)
    ensures x in Unshadowed(methods, functions) <==> x in methods && x !in functions
    decreases |methods|
  {
    if methods != [] {
      UnshadowedIn(methods[1..], functions, x);
      assert methods == [methods[0]] + methods[1..];
    }
  }

  lemma TagAllIn(tag: string, names: seq<string>, other: string, x: string)
    requires other == FunctionTag || other == ClassTag || other == MethodTag
    ensures other + x in TagAll(tag, names) <==> (tag == other && x in names)
    requires tag == FunctionTag || tag == ClassTag || tag == MethodTag
  {
    var lines := TagAll(tag, names);
    if other + x in lines {
      var i :| 0 <= i < |lines| && lines[i] == other + x;
      TagsDiffer(x, names[i]);
      TagsDiffer(names[i], x);
      assert tag == other;
      TagCancel(tag, x, names[i]);
    }
    if tag == other && x in names {
      var i :| 0 <= i < |names| && names[i] == x;
      assert lines[i] == other + x;
    }
  }

  /**
   * In the JavaScript list, "function: x" appears exactly for the function
   * matches, "class: x" exactly for the class matches, and "  method: x"
   * exactly for the method matches that are not also function matches.
   */
  lemma JsElementsKinds(m: JsMatches, x: string)
    ensures FunctionTag + x in JsElements(m) <==> x in m.functions
    ensures ClassTag + x in JsElements(m) <==> x in m.classes
    ensures MethodTag + x in JsElements(m) <==> x in m.methods && x !in m.functions
  {
    var u := Unshadowed(m.methods, m.functions);
    UnshadowedIn(m.methods, m.functions, x);
    TagAllIn(FunctionTag, m.functions, FunctionTag, x);
    TagAllIn(FunctionTag, m.functions, ClassTag, x);
    TagAllIn(FunctionTag, m.functions, MethodTag, x);
    TagAllIn(ClassTag, m.classes, FunctionTag, x);
    TagAllIn(ClassTag, m.classes, ClassTag, x);
    TagAllIn(ClassTag, m.classes, MethodTag, x);
    TagAllIn(MethodTag, u, FunctionTag, x);
    TagAllIn(MethodTag, u, ClassTag, x);
    TagAllIn(MethodTag, u, MethodTag, x);
  }

  /**
   * The positions of the JavaScript list: function lines first in match
   * order, then class lines in match order, then the kept method lines.
   */
  lemma JsElementsLayout(m: JsMatches)
    ensures var r := JsElements(m); var f := |m.functions|; var c := |m.classes|;
      var u := Unshadowed(m.methods, m.functions);
      && |r| == f + c + |u|
      && (forall i :: 0 <= i < f ==> r[i] == FunctionTag + m.functions[i])
      && (forall i :: 0 <= i < c ==> r[f + i] == ClassTag + m.classes[i])
      && (forall i :: 0 <= i < |u| ==> r[f + c + i] == MethodTag + u[i])
  {
  }
}
