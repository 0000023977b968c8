/**
 * The part of main that turns the --export-options string into the set of
 * selected output sections and file types, and the rule that names the
 * output file.
 */
module Options {
  import opened Strings

  const DefaultChoices: seq<string> := ["1", "1", "1", "all"]

  const FileTypeOptions: seq<string> := ["all", "py", "js", "md", "txt", "css", "html", "json", "other"]

  /** The comma-separated fields, or the defaults when there are fewer than four. */
  function ExportChoices(options: string): (c: seq<string>)
    ensures |c| >= 4
    ensures forall i :: 0 <= i < |c| ==> ',' !in c[i]
    ensures |SplitOn(options, ',')| < 4 ==> c == DefaultChoices
    ensures |SplitOn(options, ',')| >= 4 ==> c == SplitOn(options, ',')
  {
    var parts := SplitOn(options, ',');
    if |parts| < 4 then DefaultChoices else parts
  }

  /**
   * The file_types block of main, one set update after another.  Only
   * field 3 is used as the type list: a selection such as "0,1,0,py,js"
   * was split on every comma, so "js" is a field of its own and ignored.
   */
  method BuildFileTypes(options: string) returns (fileTypes: set<string>)
    ensures forall x :: x in fileTypes <==> Selected(ExportChoices(options), x)
  {
    fileTypes := {};
    var choices := SplitOn(options, ',');
    if |choices| < 4 {
      choices := DefaultChoices;
    }
    assert choices == ExportChoices(options);
    if choices[0] == "1" {
      fileTypes := fileTypes + {"description"};
    }
    if choices[1] == "1" {
      fileTypes := fileTypes + {"tree"};
    }
    if choices[2] == "1" {
      fileTypes := fileTypes + set o | o in FileTypeOptions;
    } else {
      var selected := SplitOn(choices[3], ',');
      SplitWithout(choices[3], ',');
      fileTypes := fileTypes + set o | o in selected;
    }
  }

  /** What the four fields select. */
  predicate Selected(c: seq<string>, x: string)
    requires |c| >= 4
  {
    || (c[0] == "1" && x == "description")
    || (c[1] == "1" && x == "tree")
    || (c[2] == "1" && x in FileTypeOptions)
    || (c[2] != "1" && x == c[3])
  }

  /** The set of section and type names main hands to export_files. */
  function FileTypes(options: string): set<string>
  {
    var c := ExportChoices(options);
    set x | x in {"description", "tree", c[3]} + (set o | o in FileTypeOptions) && Selected(c, x)
  }

  lemma FileTypesMember(options: string, x: string)
    ensures x in FileTypes(options) <==> Selected(ExportChoices(options), x)
  {
  }

  /** Fewer than four fields means fewer than three commas, and then the defaults apply. */
  lemma Fallback(options: string)
    ensures Count(options, ',') < 3 <==> ExportChoices(options) == DefaultChoices && |SplitOn(options, ',')| < 4
  {
    var parts := SplitOn(options, ',');
    if |parts| >= 4 && parts == DefaultChoices {
      assert |parts| == 4;
    }
  }

  /** The default option string selects the same as a malformed one. */
  lemma DefaultOptions()
    ensures ExportChoices("1,1,1,all") == DefaultChoices
  {
    SplitJoin(DefaultChoices, ',');
    assert JoinWith(DefaultChoices, ',') == "1,1,1,all";
  }

  /** Fields after the fourth change nothing. */
  lemma LaterFieldsIgnored(parts: seq<string>, x: string)
    requires |parts| >= 4
    requires forall i :: 0 <= i < |parts| ==> ',' !in parts[i]
    ensures x in FileTypes(JoinWith(parts, ',')) <==> x in FileTypes(JoinWith(parts[..4], ','))
  {
    var whole := JoinWith(parts, ',');
    var first := JoinWith(parts[..4], ',');
    SplitJoin(parts, ',');
    SplitJoin(parts[..4], ',');
    assert ExportChoices(whole) == parts;
    assert ExportChoices(first) == parts[..4];
    assert parts[..4][0] == parts[0] && parts[..4][1] == parts[1]
        && parts[..4][2] == parts[2] && parts[..4][3] == parts[3];
    assert Selected(parts, x) <==> Selected(parts[..4], x);
    FileTypesMember(whole, x);
    FileTypesMember(first, x);
  }

  /** "0,1,0,py,js" selects the drawing and Python files only: "js" is a fifth field. */
  lemma OnlyFourthField(x: string)
    ensures x in FileTypes("0,1,0,py,js") <==> x == "tree" || x == "py"
  {
    var parts := ["0", "1", "0", "py", "js"];
    SplitJoin(parts, ',');
    assert JoinWith(parts, ',') == "0,1,0,py,js";
    FileTypesMember("0,1,0,py,js", x);
  }

  /** The output name: the extension of --output dropped, then "_<timestamp>.txt". */
  function OutputFileName(output: string, stamp: string): string
  {
    SplitExt(output).0 + "_" + stamp + ".txt"
  }

  /**
   * For a timestamp without '.' or '/', the output name splits back into
   * the stem of --output followed by the timestamp, and the extension
   * ".txt".
   */
  lemma OutputFileNameSplits(output: string, stamp: string)
    requires '.' !in stamp && '/' !in stamp
    ensures SplitExt(OutputFileName(output, stamp)) == (SplitExt(output).0 + "_" + stamp, ".txt")
  {
    var base := SplitExt(output).0;
    var root := base + "_" + stamp;
    var name := OutputFileName(output, stamp);
    assert name == root + ['.'] + "txt";
    RFindBefore(root, '.', "txt");
    var sep := RFind(name, '/');
    assert name[|base|] == '_';
    assert forall m :: |base| <= m < |name| ==> name[m] != '/' by {
      forall m | |base| <= m < |name| ensures name[m] != '/' {
        if m == |base| {
        } else if m <= |base| + |stamp| {
          assert name[m] == stamp[m - |base| - 1];
        } else if m == |root| {
          assert name[m] == '.';
        } else {
          assert name[m] == "txt"[m - |root| - 1];
        }
      }
    }
    assert sep < |base|;
    assert HasNonDot(name, sep + 1, |root|);
    assert name[..|root|] == root;
    assert name[|root|..] == ".txt";
  }
}
