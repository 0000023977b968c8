# simple-llm-exporter snapshot pipeline, modelled in Dafny

`main.py` of simple-llm-exporter writes a project snapshot to one text
file, meant to be pasted into a language model:

1. It collects an ordered tree of files. There are three sources:
   - the whitelisted top-level files (`config.py`, `main.py`);
   - every file found by walking `app/` and `static/`, with the excluded
     directories pruned and the excluded files and images dropped;
   - the newest `logs/log_*.txt`.

   All three sources honour an optional recency window of N minutes.
2. With `--map-functions`, every `.py` or `.js` entry is annotated with
   the functions, classes and methods found in it.
3. It draws the tree with box-drawing connectors.
4. It writes the output:
   - a timestamp header, the optional description and the optional
     drawing;
   - then the selected files, in seven passes: `.py`, `.html`, `.json`,
     `.js`, `.css`, `.md`, and everything else.

The `--export-options` string selects the sections and file types.

The model replaces the filesystem, the clock and the parsers by inputs:
- a `FileSystem` value: the top-level listing, recursive `Dir` values
  walked top-down, and the optional `logs` listing;
- `now` and modification times as integer seconds;
- a `PySource` (path ↦ visited AST nodes, or failure) and a `JsSource`
  (path ↦ regex matches, or failure);
- an `isFile` predicate, and a `Reader` (path ↦ text after text-mode
  newline translation, or `None` when UTF-8 decoding fails);
- both timestamps as strings.

Modules, one per file:

| file | module | models |
|---|---|---|
| wrappers.dfy | Wrappers | `Option`, `Result` |
| strings.dfy | Strings | `str.split`, `rfind`, `startswith`/`endswith`, `os.path.basename`, `os.path.splitext`, `os.path.join`; `JoinWith` is the inverse of `str.split` (`str.join` itself is not called), used for the split/join round trip and for the '/'-join of walk paths |
| tree.dfy | OrderedTree | the insertion-ordered dict `{key: [entries]}` |
| builder.dfy | TreeBuilder | `create_tree`: the listing loop, `os.walk` as a worklist, the logs rule |
| symbols.dfy | Symbols | the emission loop of `extract_python_elements`, the list assembly of `extract_js_elements` |
| annotate.dfy | Annotation | `map_functions_to_tree` |
| render.dfy | Render | `generate_tree_string` |
| export.dfy | Export | `export_files` |
| options.dfy | Options | the `file_types` block of `main` and the output-file name |
| pipeline.dfy | Snapshot | `main` from the output name to `export_files` |

The code that updates state is modelled by methods with loops:
- `create_tree`, including the `os.walk` loop;
- `map_functions_to_tree`;
- the Python emission loop;
- `generate_tree_string`;
- `export_files`.

The `file_types` block of `main` has no loop: its `add` and `update` calls
are straight-line set updates in the method `Options.BuildFileTypes`.

Each method is proved equal to a specification function. For string output
that function is a sequence of lines or blocks, with its text. The
properties are lemmas about those functions.

Three behaviours of the code are modelled as written:
- **Every walked directory gets a key.** A key is added even when none of
  its files qualify (main.py:37-38).
- **'root' is always the first key.** It is present even when the root
  bucket is empty (main.py:19).
- **Only the fourth field is a type list.** The option string is split on
  every comma, so `"0,1,0,py,js"` selects `py` but not `js`
  (main.py:254, 272).

Readers may expect other behaviour in four places; the model follows the
code in each:
- **Annotation failures abort the run.** A source file that cannot be read
  or parsed during annotation aborts the whole run. There is no `try`
  around `extract_python_elements` or `extract_js_elements`, so `Run`
  returns `Failure(path)`.
- **An undecodable file keeps its start line.** Its block is the
  `--- Start of p ---` line followed by the `--- Unable to read p ... ---`
  line, because the start line is written before `infile.read()` raises.
- **Some files are written twice.** A file named exactly like an extension
  (`.py`, `..md`) is written by its extension's pass and again by the
  'other' pass, because `splitext` gives it no extension (`TwoPasses`,
  `DotfileTwice`).
- **Symbol lines are indented by eight characters.** Four come from the
  literal `"    "` and four more from the `"    └── "` connector.

## Model

| member | source | states |
|---|---|---|
| TreeBuilder.CreateTree | main.py:13-71 | the listing loop, the logs rule and the optional annotation produce exactly `CreateTreeSpec` |
| TreeBuilder.AddListing | main.py:19-46 | the loop over the top-level listing adds exactly the root files and walks that the listing fold specifies |
| TreeBuilder.AddLatestLog | main.py:48-66 | the logs rule adds exactly what the logs fold specifies: nothing, or the newest qualifying log under 'logs' |
| TreeBuilder.WalkInto | main.py:28-46 | the worklist walk of one included directory adds exactly the visits of the top-down, pruned walk, in pre-order |
| TreeBuilder.AddFilesInto | main.py:40-46 | the file loop of one visited directory appends exactly its recent files, in order |
| TreeBuilder.PushDirs | main.py:29-30 | pushing the kept subdirectories in reverse leaves their walks first on the stack, in listing order |
| TreeBuilder.WalkListPruned | main.py:29-30 | walking the pruned `dirs[:]` visits exactly what the pruning walk visits |
| TreeBuilder.LatestLog | main.py:61-63 | `max` by mtime picks an index of maximal mtime, and the first one on ties |
| TreeBuilder.BuildTreeWellFormed | main.py:19-66 | the tree has 'root' first, distinct keys, and only bare names |
| TreeBuilder.RootBucket | main.py:22-27 | the 'root' bucket is exactly the included, recent top-level files, in listing order |
| TreeBuilder.RootEntriesMember | main.py:23-27 | a root entry is a top-level file whose name is in `included_files` and that is within the window |
| TreeBuilder.WalkedBucket | main.py:29-46 | any other non-'logs' bucket is exactly the kept, recent files of the visited directories with that key |
| TreeBuilder.CollectMember | main.py:31-46 | a walked entry is a file of a visited directory with that key that is not excluded, not an image, and within the window |
| TreeBuilder.KeptFilesMember | main.py:31-34 | a file survives the filter iff it is not excluded and does not end in .png/.jpg/.jpeg |
| TreeBuilder.AdmittedMember | main.py:40-46 | a file is appended iff it is within the recency window |
| TreeBuilder.BuildTreeKeys | main.py:19-66 | a key is present iff it is 'root', the key of a visited directory (even an empty one), or 'logs' with a qualifying log |
| TreeBuilder.BuildTreeKeyOrder | main.py:19-66 | the keys come in the order the drawing and the export follow: 'root', then each visited directory's key at its first visit in walk order, then 'logs' last when a log qualifies |
| TreeBuilder.FirstsSpec | main.py:37-38 | keeping first occurrences keeps every key, once |
| TreeBuilder.InsertAllFirsts | main.py:37-38 | repeating `if k not in tree: tree[k] = []` from no keys leaves exactly the first occurrences, in order |
| OrderedTree.EnsureKeyOrder | main.py:37-38 | `if k not in tree: tree[k] = []` puts k at the end of the key order exactly when it is new |
| TreeBuilder.LogsBucket | main.py:48-66 | the 'logs' key exists iff some log qualifies, and its bucket is exactly the first newest qualifying log |
| TreeBuilder.LogCandidatesMember | main.py:50-59 | a log qualifies iff it is named `log_*.txt` and is within the window |
| TreeBuilder.LogNamedMember | main.py:50-53 | the name filter keeps exactly the `log_*.txt` names |
| TreeBuilder.RecentOnlyMember | main.py:54-59 | the recency filter keeps exactly the files within the window |
| TreeBuilder.NoExcludedComponent | main.py:29-30 | when names hold no '/', no tree key has an excluded directory name as a path component |
| TreeBuilder.VisitsKeys | main.py:28-38 | walked keys are never 'root' or 'logs' |
| OrderedTree.EnsureKey | main.py:37-38 | `if k not in tree: tree[k] = []` adds k last, with an empty list, only when it is absent, and no lookup changes |
| OrderedTree.Append | main.py:46 | `tree[k].append(e)` extends exactly bucket k and keeps every key in place |
| Annotation.MapFunctionsToTree | main.py:74-87 | overwriting bucket after bucket produces exactly `AnnotateBuckets` |
| Annotation.AnnotateShape | main.py:74-87 | keys, key order, entry counts, order and names are kept; exactly the .py/.js entries become annotated, with their parser's lines |
| Annotation.AnnotateFails | main.py:74-87 | the annotation fails iff some .py or .js file cannot be read or parsed, and then names such a path |
| Annotation.AnnotateEntriesPointwise | main.py:76-86 | a bucket maps entry by entry, keeps its length, and fails with its first failing entry |
| Annotation.AnnotateBucketsPointwise | main.py:75-86 | the tree maps bucket by bucket with keys unchanged, and fails with its first failing bucket |
| Symbols.ExtractPythonElements | main.py:95-106 | the emission loop over the visited nodes yields exactly `PyElements` |
| Symbols.ClassElements | main.py:100-104 | a class yields its own line, then one line per direct function definition of its body |
| Symbols.PyElementsKinds | main.py:97-104 | "function: x" iff a FunctionDef x is visited; "class: x" iff a ClassDef x is; "  method: x" iff some visited class has a direct FunctionDef x |
| Symbols.JsElementsKinds | main.py:121-127 | "function: x" iff x is a function match; "class: x" iff x is a class match; "  method: x" iff x is a method match and not a function match |
| Symbols.JsElementsLayout | main.py:121-127 | the function lines come first, then the class lines, then the kept method lines, each in match order |
| Symbols.UnshadowedIn | main.py:125-127 | a method is kept iff it is not among the function matches |
| Render.GenerateTreeString | main.py:132-156 | the accumulated string is exactly `TreeString` |
| Render.AppendBucket | main.py:138-153 | one non-root bucket appends its heading, then its entry lines |
| Render.AppendEntries | main.py:143-153 | the entry loop appends every entry's line, followed by its symbol lines |
| Render.AppendSymbols | main.py:148-151 | the symbol loop appends one line per symbol, in order |
| Render.RootOnly | main.py:138-139 | a tree holding only 'root' draws nothing |
| Render.RootIgnored | main.py:138-139 | replacing the files of 'root' leaves the drawing unchanged |
| Render.BucketRendered | main.py:140-153 | every non-root heading, entry line and symbol line is drawn, with "└── " exactly on the last of its list |
| Render.PlainEntries | main.py:143-153 | an unannotated bucket draws one line per file in order, with "└── " exactly on the last |
| Render.TreeStringLines | main.py:141-153 | when names hold no newline, the drawing splits at newlines into exactly its lines |
| Render.DrawingLineCount | main.py:137-153 | when no key, entry name or symbol holds a newline, the drawing has one line per non-root bucket plus one per entry, plus one per symbol of an annotated entry |
| Export.ExportFiles | main.py:159-210 | the written text is exactly the header, the selected sections and then the seven passes, in order |
| Export.WritePreamble | main.py:161-170 | the header, then the description and the drawing when they are selected |
| Export.ExportPass | main.py:181-210 | one pass writes the blocks of every bucket in tree order |
| Export.ExportBucket | main.py:182-210 | one bucket writes the blocks of its entries in order |
| Export.ExportEntry | main.py:184-210 | an entry is written iff its path is a regular file that the pass takes; an undecodable file gets its start line and the unable line |
| Export.ExportedFiles | main.py:172-210 | a file block is in the output iff some enabled pass meets a regular-file entry whose name it takes |
| Export.PassesBlocksMember | main.py:174-179 | a block comes from the passes iff some enabled pass produces it |
| Export.FileBlockInPasses | main.py:160-174 | a file's block in the output comes from a pass, never from the header, description or drawing |
| Export.AllExportsEverything | main.py:174-198 | with 'all' selected, every regular-file entry of the tree is written |
| Export.SomePassMatches | main.py:172-198 | every name is taken by its extension's pass or by 'other' |
| Export.OneNamedPass | main.py:197-198 | no two named passes take the same name |
| Export.TwoPasses | main.py:193-198 | a name is taken by a named pass and by 'other' iff it ends with that extension and only dots precede it |
| Export.DotfileTwice | main.py:193-198 | ".py" is taken by the .py pass and by 'other' |
| Export.TxtOnlyOther | main.py:193-198 | no named pass takes a ".txt" file |
| Export.PassesBlocksNames | main.py:181-191 | the file blocks depend only on the keys and entry names, not on annotations |
| Options.ExportChoices | main.py:254-258 | with fewer than four comma fields the defaults are used, otherwise the fields; no field holds a comma |
| Options.BuildFileTypes | main.py:253-273 | the set holds x iff field 0 selects the description, field 1 the drawing, field 2 all nine types, or field 3 is x |
| Options.Fallback | main.py:254-258 | the defaults apply iff the string has fewer than three commas |
| Options.DefaultOptions | main.py:235-237 | "1,1,1,all" gives the same fields as the fallback |
| Options.LaterFieldsIgnored | main.py:269-273 | fields after the fourth never change the selection |
| Options.OnlyFourthField | main.py:254-273 | "0,1,0,py,js" selects exactly "tree" and "py" |
| Options.OutputFileNameSplits | main.py:249-251 | the output name splits into the stem of --output followed by "_" and the timestamp, and ".txt"; the condition that the timestamp holds no '.' and no '/' always holds for `strftime('%Y%m%d_%H%M%S')` |
| Snapshot.Run | main.py:249-277 | the name, selection, tree and export steps produce exactly `RunSpec` |
| Snapshot.RunFails | main.py:68-69 | a run fails iff --map-functions is set and some .py/.js file is unreadable; it then names such a path |
| Snapshot.AnnotatedSameNames | main.py:74-87 | the annotated tree has the keys and names of the plain one |
| Snapshot.MapFunctionsKeepsFiles | main.py:181-191 | --map-functions changes no file block of the output |
| Snapshot.PlainFileExported | main.py:22-27 | with 'all' selected, a recent whitelisted top-level regular file has its block among the pass blocks of the uncut tree |
| Snapshot.IncludedFileExported | main.py:22-27 | with 'all' selected and the tree built (with or without --map-functions), a recent whitelisted top-level regular file is written under its bare name |
| Strings.SplitOn | main.py:254 | `split(',')` gives one more field than there are commas, and no field holds a comma |
| Strings.SplitJoin | main.py:254 | comma-free fields joined with commas split back into the same fields |
| Strings.JoinSplit | main.py:254 | joining the fields of a split gives back the string |
| Strings.Basename | main.py:141 | `basename` is everything after the last '/': it has no '/', is a suffix, is preceded by a '/' when shorter than the path, and is the whole path when the path has no '/' |
| Strings.SplitExt | main.py:194-195 | `splitext` splits the name into two parts, and a non-empty extension is one dot followed by neither dots nor '/' |
| Strings.PathJoinName | main.py:189-191 | joining a key and a bare name gives a path that starts with the key, ends with the name, and has the name as basename |

## Left out

- Filesystem calls are inputs, not calls: `os.listdir`, `os.walk`,
  `isfile`/`isdir`, `getmtime`, `open`, `read` and `write`. The file's
  text is the returned string.
- The listing and walk order is whatever the `FileSystem` value holds.
  Symbolic links and directories that vanish during the walk are not
  modelled.
- `os.walk` is called without `onerror`, so the source silently skips a
  directory it cannot list (no permission, say), and that directory gets no
  key. The model has no unreadable directories: every `Dir` is listed and
  gets its key.
- `open(..., 'r')` reads in text mode with universal newlines, so `\r\n`
  and `\r` arrive as `\n`. The `Reader` input stands for that translated
  text, not for the bytes on disk.
- `TreeBuilder.WalkInto` models the `relpath` of a walk root as the
  '/'-join of its components. It does not model `..` or `.` normalisation.
  It also does not model names that themselves contain '/'.
- `datetime.now()` and the float `total_seconds()` are replaced by integer
  seconds. The recency test uses `now - mtime <= recent * 60` on integers.
  The source compares naive local datetimes in that test but takes `max`
  of raw epoch `getmtime` values for the logs rule; both are one integer
  clock here, so local-time and daylight-saving effects are not modelled.
- `ast.parse`, `ast.walk` and the regex engine of `re.findall` are
  replaced by their results. `ast.walk`'s visiting order is part of the
  input.
- A parse error and a read error become the same `Failure(path)`.
- `run_scrubber` runs an external process and is not called by `main`.
- `argparse` is replaced by the `Args` value, so `--recent` is already an
  integer or absent.
- The `print` calls, `os.makedirs('./backups')` and `outfile`'s encoding
  are not modelled.
- Errors from `open` other than a failed UTF-8 decode are not modelled.
- `get_app_description` is the constant `AppDescription`.
- The `prefix` parameter of `_generate_tree` is always empty in the source,
  so the model has none.
