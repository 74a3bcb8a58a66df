/**
 * backend/app/extract_pbix.py: running pbi-tools on a .pbix container and
 * turning what it writes into a report record.
 *
 * The file system, the subprocess and JSON decoding are inputs here: the
 * environment and the set of regular files for locating the executable, the
 * tool's exit code and error text, the directory listings that the globs walk
 * (in their enumeration order), the already-decoded layout files and a reader
 * from a model-file path to its decoded content. The working directory is a
 * small object whose `onDisk` flag records `mkdtemp` and `rmtree`.
 */
module ExtractPbix {
  import opened Wrappers
  import opened Text
  import opened Report

  /** Used when `PBITOOLS_PATH` is not set. */
  const DefaultToolPath: string := @"C:\Users\lmoothery\AppData\Local\pbi-tools.exe"

  /** The `note` of a report whose container holds no semantic model. */
  const ThinReportNote: string := "Thin report – modèle hébergé dans le Service Power BI"

  /** Why decoding the model file failed: not JSON at all, or a `KeyError` on a required key. */
  datatype ModelFault = Undecodable | MissingKey(key: string)

  datatype ExtractError =
    | ToolsMissing(exe: string)          // PBIToolsMissing("pbi-tools introuvable : " + exe)
    | ToolFailed(stderr: string)         // RuntimeError("pbi-tools erreur :\n" + stderr), stderr stripped
    | MalformedLayout(stem: string)      // json.load failed on Report/Layout/<stem>.json
    | MalformedModel(fault: ModelFault)

  // ------------------------------------------------------------ executable

  /** `os.getenv("PBITOOLS_PATH", DEFAULT_PATH)`. */
  function ConfiguredTool(env: map<string, string>): string {
    if "PBITOOLS_PATH" in env then env["PBITOOLS_PATH"] else DefaultToolPath
  }

  /** `_pbi_tools_path()`: the configured executable, provided it is a regular file. */
  function ToolPath(env: map<string, string>, regularFiles: set<string>): (r: Result<string, ExtractError>)
    ensures r.Ok? <==> ConfiguredTool(env) in regularFiles
    ensures r.Ok? ==> r.value == ConfiguredTool(env)
    ensures r.Err? ==> r.error == ToolsMissing(ConfiguredTool(env))
  {
    var exe := ConfiguredTool(env);
    if exe !in regularFiles then Err(ToolsMissing(exe)) else Ok(exe)
  }

  // ------------------------------------------------------------ model file

  /** One directory entry: its path below the working directory, its base name, and `is_file()`. */
  datatype Entry = Entry(path: string, name: string, isFile: bool)

  /**
   * What `_find_model_file` can see: the entries of `Model/` in `glob` order and
   * every entry below the working directory in `rglob` order.
   */
  datatype Listing = Listing(modelDir: seq<Entry>, tree: seq<Entry>)

  /** The two glob shapes used: `DataModelSchema*` and `*.tmdl` / `*.bim`. */
  datatype Pattern = Prefix(prefix: string) | Suffix(suffix: string)

  const DatabaseJsonPath: string := "Model/database.json"
  const SchemaPattern: Pattern := Prefix("DataModelSchema")
  const TmdlPattern: Pattern := Suffix(".tmdl")
  const BimPattern: Pattern := Suffix(".bim")

  /**
   * The entry's name matches the pattern. The program targets Windows, where `glob`,
   * `rglob` and `is_file` ignore letter case; case is folded with `Lower`.
   */
  predicate GlobMatch(e: Entry, pat: Pattern) {
    var name := Lower(e.name);
    match pat
    case Prefix(p) => |p| <= |name| && name[..|p|] == Lower(p)
    case Suffix(s) => |s| <= |name| && name[|name| - |s|..] == Lower(s)
  }

  /** `(tmp / "Model" / "database.json").is_file()`, whatever the letter case of the name on disk. */
  predicate HasDatabaseJson(l: Listing) {
    exists k :: 0 <= k < |l.modelDir| && Lower(l.modelDir[k].name) == "database.json" && l.modelDir[k].isFile
  }

  /** `list(d.glob(pat))` over the listing `es`: the matching entries, in enumeration order. */
  function Glob(es: seq<Entry>, pat: Pattern): (r: seq<Entry>)
    ensures |r| <= |es|
  {
    if es == [] then []
    else (if GlobMatch(es[0], pat) then [es[0]] else []) + Glob(es[1..], pat)
  }

  /** The first entry that `is_file()`. */
  function FirstFile(es: seq<Entry>): Option<Entry> {
    if es == [] then None else if es[0].isFile then Some(es[0]) else FirstFile(es[1..])
  }

  /** `_find_model_file(tmp)`, first match wins. */
  function ModelFile(l: Listing): Option<string> {
    if HasDatabaseJson(l) then Some(DatabaseJsonPath)
    else match FirstFile(Glob(l.modelDir, SchemaPattern))
      case Some(e) => Some(e.path)
      case None =>
        var tmdl := Glob(l.tree, TmdlPattern);
        if tmdl != [] then Some(tmdl[0].path)
        else
          var bim := Glob(l.tree, BimPattern);
          if bim != [] then Some(bim[0].path) else None
  }

  /** Entry `e` is a candidate: it matches `pat` and, when `fileOnly`, is a regular file. */
  predicate Selected(e: Entry, pat: Pattern, fileOnly: bool) {
    GlobMatch(e, pat) && (fileOnly ==> e.isFile)
  }

  /** `es[k]` is the first candidate of the listing. */
  predicate FirstAt(es: seq<Entry>, pat: Pattern, fileOnly: bool, k: int) {
    0 <= k < |es| && Selected(es[k], pat, fileOnly)
    && forall j :: 0 <= j < k ==> !Selected(es[j], pat, fileOnly)
  }

  /** The listing has no candidate. */
  predicate NoneSelected(es: seq<Entry>, pat: Pattern, fileOnly: bool) {
    forall j :: 0 <= j < |es| ==> !Selected(es[j], pat, fileOnly)
  }

  /** The glob result is empty exactly when no entry matches, and otherwise starts with the first match. */
  lemma {:induction false} GlobFirst(es: seq<Entry>, pat: Pattern)
    ensures Glob(es, pat) == [] <==> NoneSelected(es, pat, false)
    ensures forall k :: FirstAt(es, pat, false, k) ==> Glob(es, pat) != [] && Glob(es, pat)[0] == es[k]
  {
    if es != [] {
      GlobFirst(es[1..], pat);
      if !GlobMatch(es[0], pat) {
        forall k | FirstAt(es, pat, false, k)
          ensures FirstAt(es[1..], pat, false, k - 1)
        {
          forall j | 0 <= j < k - 1 ensures !Selected(es[1..][j], pat, false) {
            assert es[1..][j] == es[j + 1];
          }
        }
        if NoneSelected(es[1..], pat, false) {
          forall j | 0 <= j < |es| ensures !Selected(es[j], pat, false) {
            if j > 0 { assert es[j] == es[1..][j - 1]; }
          }
        }
      }
    }
  }

  /** The first file among the glob results is the listing's first matching file. */
  lemma {:induction false} FirstFileOfGlob(es: seq<Entry>, pat: Pattern)
    ensures FirstFile(Glob(es, pat)).None? <==> NoneSelected(es, pat, true)
    ensures forall k :: FirstAt(es, pat, true, k) ==> FirstFile(Glob(es, pat)) == Some(es[k])
  {
    if es != [] {
      FirstFileOfGlob(es[1..], pat);
      var g := Glob(es, pat);
      if GlobMatch(es[0], pat) {
        assert g == [es[0]] + Glob(es[1..], pat);
        assert g[1..] == Glob(es[1..], pat);
      } else {
        assert g == Glob(es[1..], pat);
      }
      if !Selected(es[0], pat, true) {
        forall k | FirstAt(es, pat, true, k)
          ensures FirstAt(es[1..], pat, true, k - 1)
        {
          forall j | 0 <= j < k - 1 ensures !Selected(es[1..][j], pat, true) {
            assert es[1..][j] == es[j + 1];
          }
        }
        if NoneSelected(es[1..], pat, true) {
          forall j | 0 <= j < |es| ensures !Selected(es[j], pat, true) {
            if j > 0 { assert es[j] == es[1..][j - 1]; }
          }
        }
      }
    }
  }

  /**
   * The selection order of `_find_model_file`: `Model/database.json` if it is a file;
   * else the first regular file of `Model/` named `DataModelSchema*`; else the first
   * entry anywhere named `*.tmdl`; else the first named `*.bim`; else nothing.
   */
  lemma ModelFileOrder(l: Listing)
    ensures HasDatabaseJson(l) ==> ModelFile(l) == Some(DatabaseJsonPath)
    ensures forall k :: !HasDatabaseJson(l) && FirstAt(l.modelDir, SchemaPattern, true, k)
              ==> ModelFile(l) == Some(l.modelDir[k].path)
    ensures forall k :: !HasDatabaseJson(l) && NoneSelected(l.modelDir, SchemaPattern, true)
                        && FirstAt(l.tree, TmdlPattern, false, k)
              ==> ModelFile(l) == Some(l.tree[k].path)
    ensures forall k :: !HasDatabaseJson(l) && NoneSelected(l.modelDir, SchemaPattern, true)
                        && NoneSelected(l.tree, TmdlPattern, false) && FirstAt(l.tree, BimPattern, false, k)
              ==> ModelFile(l) == Some(l.tree[k].path)
    ensures ModelFile(l).None?
        <==> !HasDatabaseJson(l) && NoneSelected(l.modelDir, SchemaPattern, true)
             && NoneSelected(l.tree, TmdlPattern, false) && NoneSelected(l.tree, BimPattern, false)
  {
    FirstFileOfGlob(l.modelDir, SchemaPattern);
    GlobFirst(l.tree, TmdlPattern);
    GlobFirst(l.tree, BimPattern);
  }

  /** The loop over `model_dir.glob("DataModelSchema*")` that returns the first regular file. */
  method FirstFileIn(candidates: seq<Entry>) returns (r: Option<Entry>)
    ensures r == FirstFile(candidates)
  {
    var i := 0;
    while i < |candidates|
      invariant i <= |candidates|
      invariant FirstFile(candidates) == FirstFile(candidates[i..])
    {
      if candidates[i].isFile {
        return Some(candidates[i]);
      }
      assert candidates[i..][1..] == candidates[i + 1..];
      i := i + 1;
    }
    return None;
  }

  /** `_find_model_file`: an `is_file` test, then early returns out of the glob loops. */
  method FindModelFile(l: Listing) returns (r: Option<string>)
    ensures r == ModelFile(l)
  {
    if HasDatabaseJson(l) {
      return Some(DatabaseJsonPath);
    }
    var schema := FirstFileIn(Glob(l.modelDir, SchemaPattern));
    if schema.Some? {
      return Some(schema.value.path);
    }
    var patterns := [TmdlPattern, BimPattern];
    for p := 0 to |patterns|
      invariant p >= 1 ==> Glob(l.tree, TmdlPattern) == []
      invariant p >= 2 ==> Glob(l.tree, BimPattern) == []
    {
      var res := Glob(l.tree, patterns[p]);
      if res != [] {
        return Some(res[0].path);
      }
    }
    return None;
  }

  // ------------------------------------------------------------ pages

  /** `v.get("config", {})`: only its `dataRoles` key is read. */
  datatype Config = Config(dataRoles: Option<seq<Field>>)

  /** An element of a layout's `visualContainers`. */
  datatype VisualContainer = VisualContainer(visualType: Option<string>, config: Option<Config>)

  /** A decoded layout file; absent keys are `None`. */
  datatype Layout = Layout(name: Option<string>, visualContainers: Option<seq<VisualContainer>>)

  /** A file of `Report/Layout/` (glob `*.json`): its stem and its content, `None` when `json.load` fails. */
  datatype LayoutFile = LayoutFile(stem: string, content: Option<Layout>)

  /** The per-visual dictionary: `visualType` or `None`, `config.dataRoles` or `[]`. */
  function VisualOf(v: VisualContainer): Visual {
    Visual(v.visualType,
           match v.config
           case None => []
           case Some(c) => if c.dataRoles.Some? then c.dataRoles.value else [])
  }

  /** The page of one layout: `name` or the file stem, one visual per container. */
  function PageOf(stem: string, lay: Layout): Page {
    var containers := if lay.visualContainers.Some? then lay.visualContainers.value else [];
    Page(if lay.name.Some? then lay.name.value else stem,
         seq(|containers|, i requires 0 <= i < |containers| => VisualOf(containers[i])))
  }

  /** A visual's `type` is the container's `visualType`; its `fields` are `config.dataRoles`, or `[]` when either key is absent. */
  lemma VisualDefaults(v: VisualContainer)
    ensures VisualOf(v).vtype == v.visualType
    ensures v.config.None? ==> VisualOf(v).fields == []
    ensures v.config.Some? && v.config.value.dataRoles.None? ==> VisualOf(v).fields == []
    ensures v.config.Some? && v.config.value.dataRoles.Some? ==> VisualOf(v).fields == v.config.value.dataRoles.value
  {
  }

  /** A page is named by `name`, else by the file stem, and has one visual per container, in order. */
  lemma PageDefaults(stem: string, lay: Layout)
    ensures lay.name.None? ==> PageOf(stem, lay).name == stem
    ensures lay.name.Some? ==> PageOf(stem, lay).name == lay.name.value
    ensures lay.visualContainers.None? ==> PageOf(stem, lay).visuals == []
    ensures lay.visualContainers.Some? ==>
              && |PageOf(stem, lay).visuals| == |lay.visualContainers.value|
              && forall i :: 0 <= i < |lay.visualContainers.value| ==>
                   PageOf(stem, lay).visuals[i] == VisualOf(lay.visualContainers.value[i])
  {
  }

  /** `_extract_pages(tmp)`: one page per layout file, in enumeration order; the first file that is not JSON aborts. */
  function PagesOf(files: seq<LayoutFile>): (r: Result<seq<Page>, ExtractError>)
    ensures r.Ok? <==> forall j :: 0 <= j < |files| ==> files[j].content.Some?
    ensures r.Ok? ==> |r.value| == |files|
    ensures r.Ok? ==> forall j :: 0 <= j < |files| ==> r.value[j] == PageOf(files[j].stem, files[j].content.value)
    ensures r.Err? ==> exists j :: 0 <= j < |files| && files[j].content.None? && r.error == MalformedLayout(files[j].stem)
                                   && forall i :: 0 <= i < j ==> files[i].content.Some?
  {
    if files == [] then Ok([])
    else match files[0].content
      case None => Err(MalformedLayout(files[0].stem))
      case Some(lay) =>
        match PagesOf(files[1..])
        case Err(e) => Err(e)
        case Ok(ps) => Ok([PageOf(files[0].stem, lay)] + ps)
  }

  /** `_extract_pages`: appends one page per layout file. */
  method ExtractPages(files: seq<LayoutFile>) returns (r: Result<seq<Page>, ExtractError>)
    ensures r == PagesOf(files)
  {
    var pages: seq<Page> := [];
    var i := 0;
    assert files[i..] == files;
    PrependNothing(PagesOf(files));
    while i < |files|
      invariant i <= |files|
      invariant PagesOf(files) == PrependPages(pages, PagesOf(files[i..]))
    {
      var lf := files[i];
      assert files[i..][1..] == files[i + 1..];
      if lf.content.None? {
        return Err(MalformedLayout(lf.stem));
      }
      PrependStep(pages, PageOf(lf.stem, lf.content.value), PagesOf(files[i + 1..]));
      pages := pages + [PageOf(lf.stem, lf.content.value)];
      i := i + 1;
    }
    assert pages + [] == pages;
    r := Ok(pages);
  }

  /** The pages already built in front of the outcome of the rest. */
  function PrependPages(done: seq<Page>, rest: Result<seq<Page>, ExtractError>): Result<seq<Page>, ExtractError> {
    match rest
    case Err(e) => Err(e)
    case Ok(ps) => Ok(done + ps)
  }

  lemma PrependNothing(rest: Result<seq<Page>, ExtractError>)
    ensures PrependPages([], rest) == rest
  {
    if rest.Ok? {
      assert [] + rest.value == rest.value;
    }
  }

  /** Building one more page keeps the outcome. */
  lemma PrependStep(done: seq<Page>, p: Page, rest: Result<seq<Page>, ExtractError>)
    ensures PrependPages(done, PrependPages([p], rest)) == PrependPages(done + [p], rest)
  {
    if rest.Ok? {
      assert done + ([p] + rest.value) == done + [p] + rest.value;
    }
  }

  // ------------------------------------------------------------ model

  /** A measure record of the decoded model; absent keys are `None`. */
  datatype MeasureRec = MeasureRec(name: Option<string>, expression: Option<string>)

  /** A table record of the decoded model. */
  datatype TableRec = TableRec(name: Option<string>, measures: Option<seq<MeasureRec>>)

  /** `model["model"]`. */
  datatype ModelBody = ModelBody(tables: Option<seq<TableRec>>, relationships: Option<seq<Relation>>)

  /** The decoded model file. */
  datatype ModelDoc = ModelDoc(model: Option<ModelBody>)

  /** `[t["name"] for t in tables]`. */
  function TableNames(ts: seq<TableRec>): (r: Result<seq<string>, ModelFault>)
    ensures r.Ok? <==> forall i :: 0 <= i < |ts| ==> ts[i].name.Some?
    ensures r.Ok? ==> |r.value| == |ts| && forall i :: 0 <= i < |ts| ==> ts[i].name == Some(r.value[i])
    ensures r.Err? ==> r.error == MissingKey("name")
  {
    if ts == [] then Ok([])
    else if ts[0].name.None? then Err(MissingKey("name"))
    else match TableNames(ts[1..])
      case Err(e) => Err(e)
      case Ok(ns) => Ok([ts[0].name.value] + ns)
  }

  /** `t.get("measures", [])`. */
  function MeasureRecs(t: TableRec): seq<MeasureRec> {
    if t.measures.Some? then t.measures.value else []
  }

  /** The measure records of one table, in order, each tagged with the table's name. */
  function TableMeasures(t: TableRec, ms: seq<MeasureRec>): Result<seq<Measure>, ModelFault> {
    if ms == [] then Ok([])
    else if t.name.None? then Err(MissingKey("name"))
    else if ms[0].name.None? then Err(MissingKey("name"))
    else if ms[0].expression.None? then Err(MissingKey("expression"))
    else match TableMeasures(t, ms[1..])
      case Err(e) => Err(e)
      case Ok(rest) => Ok([Measure(t.name.value, ms[0].name.value, ms[0].expression.value)] + rest)
  }

  /** The flattening comprehension over tables and their measures. */
  function MeasuresOf(ts: seq<TableRec>): Result<seq<Measure>, ModelFault> {
    if ts == [] then Ok([])
    else match TableMeasures(ts[0], MeasureRecs(ts[0]))
      case Err(e) => Err(e)
      case Ok(first) =>
        match MeasuresOf(ts[1..])
        case Err(e) => Err(e)
        case Ok(rest) => Ok(first + rest)
  }

  /** Sum of the per-table measure counts; a table without `measures` counts zero. */
  function MeasureTotal(ts: seq<TableRec>): nat {
    if ts == [] then 0 else |MeasureRecs(ts[0])| + MeasureTotal(ts[1..])
  }

  /**
   * The fault the comprehension meets on entry `m` of table `t`, if any: `t["name"]` and
   * `m["name"]` are read before `m["expression"]`.
   */
  function EntryFault(t: TableRec, m: MeasureRec): Option<ModelFault> {
    if t.name.None? || m.name.None? then Some(MissingKey("name"))
    else if m.expression.None? then Some(MissingKey("expression"))
    else None
  }

  /**
   * One table's measures: they fail exactly when some entry has a fault, and then with the
   * first entry's fault; otherwise record `k` carries the table's name and the `name` and
   * `expression` of entry `k`.
   */
  lemma {:induction false} TableMeasuresSpec(t: TableRec, ms: seq<MeasureRec>)
    ensures TableMeasures(t, ms).Ok? <==> forall k :: 0 <= k < |ms| ==> EntryFault(t, ms[k]).None?
    ensures TableMeasures(t, ms).Ok? ==> |TableMeasures(t, ms).value| == |ms|
    ensures TableMeasures(t, ms).Ok? ==>
              forall k :: 0 <= k < |ms| ==>
                TableMeasures(t, ms).value[k] == Measure(t.name.value, ms[k].name.value, ms[k].expression.value)
    ensures TableMeasures(t, ms).Ok? ==> forall m :: m in TableMeasures(t, ms).value ==> t.name == Some(m.table)
    ensures TableMeasures(t, ms).Err? ==>
              exists k :: 0 <= k < |ms| && (forall j :: 0 <= j < k ==> EntryFault(t, ms[j]).None?)
                          && EntryFault(t, ms[k]) == Some(TableMeasures(t, ms).error)
    decreases |ms|
  {
    if ms != [] {
      var rest := ms[1..];
      TableMeasuresSpec(t, rest);
      if EntryFault(t, ms[0]).None? {
        var r := TableMeasures(t, ms);
        if r.Ok? {
          forall k | 0 <= k < |ms|
            ensures r.value[k] == Measure(t.name.value, ms[k].name.value, ms[k].expression.value)
          {
            if k > 0 {
              assert ms[k] == rest[k - 1];
            }
          }
        } else {
          var k :| 0 <= k < |rest| && (forall j :: 0 <= j < k ==> EntryFault(t, rest[j]).None?)
                   && EntryFault(t, rest[k]) == Some(r.error);
          forall j | 0 <= j < k + 1
            ensures EntryFault(t, ms[j]).None?
          {
            if j > 0 {
              assert ms[j] == rest[j - 1];
            }
          }
          assert ms[k + 1] == rest[k];
        }
      }
      if TableMeasures(t, ms).Ok? {
        forall k | 0 <= k < |rest|
          ensures EntryFault(t, rest[k]).None?
        {
          assert rest[k] == ms[k + 1];
        }
      }
    }
  }

  /** Every measure is tagged with the name of a table it came from, and there are as many as the tables list. */
  lemma {:induction false} MeasuresOfSpec(ts: seq<TableRec>)
    ensures MeasuresOf(ts).Ok? ==> |MeasuresOf(ts).value| == MeasureTotal(ts)
    ensures MeasuresOf(ts).Ok? ==>
              forall m :: m in MeasuresOf(ts).value ==> exists i :: 0 <= i < |ts| && ts[i].name == Some(m.table)
  {
    if ts != [] {
      TableMeasuresSpec(ts[0], MeasureRecs(ts[0]));
      MeasuresOfSpec(ts[1..]);
      if MeasuresOf(ts).Ok? {
        var first := TableMeasures(ts[0], MeasureRecs(ts[0])).value;
        var rest := MeasuresOf(ts[1..]).value;
        forall m | m in MeasuresOf(ts).value
          ensures exists i :: 0 <= i < |ts| && ts[i].name == Some(m.table)
        {
          if m in first {
            assert ts[0].name == Some(m.table);
          } else {
            assert m in rest;
            var i :| 0 <= i < |ts[1..]| && ts[1..][i].name == Some(m.table);
            assert ts[i + 1].name == Some(m.table);
          }
        }
      }
    }
  }

  /** The number of measure entries of the first `i` tables: where table `i`'s measures start. */
  function MeasuresBefore(ts: seq<TableRec>, i: nat): (r: nat)
    requires i <= |ts|
    ensures i < |ts| ==> r + |MeasureRecs(ts[i])| <= MeasureTotal(ts)
    decreases i
  {
    if i == 0 then 0 else |MeasureRecs(ts[0])| + MeasuresBefore(ts[1..], i - 1)
  }

  /** The flattening fails exactly when some table fails, and then with the first failing table's fault. */
  lemma {:induction false} MeasuresOfFails(ts: seq<TableRec>)
    ensures MeasuresOf(ts).Ok? <==> forall i :: 0 <= i < |ts| ==> TableMeasures(ts[i], MeasureRecs(ts[i])).Ok?
    ensures MeasuresOf(ts).Err? ==>
              exists i :: 0 <= i < |ts| && (forall j :: 0 <= j < i ==> TableMeasures(ts[j], MeasureRecs(ts[j])).Ok?)
                          && TableMeasures(ts[i], MeasureRecs(ts[i])) == Err(MeasuresOf(ts).error)
    decreases |ts|
  {
    if ts != [] {
      var rest := ts[1..];
      MeasuresOfFails(rest);
      var r := MeasuresOf(ts);
      if r.Ok? {
        forall i | 0 <= i < |ts| ensures TableMeasures(ts[i], MeasureRecs(ts[i])).Ok? {
          if i > 0 { assert ts[i] == rest[i - 1]; }
        }
      } else if TableMeasures(ts[0], MeasureRecs(ts[0])).Ok? {
        var i :| 0 <= i < |rest| && (forall j :: 0 <= j < i ==> TableMeasures(rest[j], MeasureRecs(rest[j])).Ok?)
                 && TableMeasures(rest[i], MeasureRecs(rest[i])) == Err(r.error);
        forall j | 0 <= j < i + 1 ensures TableMeasures(ts[j], MeasureRecs(ts[j])).Ok? {
          if j > 0 { assert ts[j] == rest[j - 1]; }
        }
        assert ts[i + 1] == rest[i];
      }
    }
  }

  /** The flattening keeps table order: table `i`'s measures stand, in entry order, right after those of the tables before it. */
  lemma {:induction false} MeasuresOfLayout(ts: seq<TableRec>)
    ensures MeasuresOf(ts).Ok? ==>
              forall i :: 0 <= i < |ts| ==>
                && MeasuresBefore(ts, i) + |MeasureRecs(ts[i])| <= |MeasuresOf(ts).value|
                && TableMeasures(ts[i], MeasureRecs(ts[i])).Ok?
                && MeasuresOf(ts).value[MeasuresBefore(ts, i)..MeasuresBefore(ts, i) + |MeasureRecs(ts[i])|]
                   == TableMeasures(ts[i], MeasureRecs(ts[i])).value
    decreases |ts|
  {
    MeasuresOfFails(ts);
    if ts != [] && MeasuresOf(ts).Ok? {
      var rest := ts[1..];
      MeasuresOfLayout(rest);
      TableMeasuresSpec(ts[0], MeasureRecs(ts[0]));
      var first := TableMeasures(ts[0], MeasureRecs(ts[0])).value;
      var tail := MeasuresOf(rest).value;
      assert MeasuresOf(ts).value == first + tail;
      forall i | 0 <= i < |ts|
        ensures MeasuresBefore(ts, i) + |MeasureRecs(ts[i])| <= |first + tail|
        ensures TableMeasures(ts[i], MeasureRecs(ts[i])).Ok?
        ensures (first + tail)[MeasuresBefore(ts, i)..MeasuresBefore(ts, i) + |MeasureRecs(ts[i])|]
                == TableMeasures(ts[i], MeasureRecs(ts[i])).value
      {
        if i == 0 {
          assert (first + tail)[..|first|] == first;
        } else {
          assert ts[i] == rest[i - 1];
          LayoutShift(ts, i, first, tail, TableMeasures(ts[i], MeasureRecs(ts[i])).value);
        }
      }
    }
  }

  /** Entry `k` of table `i` becomes the measure at position `MeasuresBefore(ts, i) + k`, with the table's name. */
  lemma MeasuresOfEntries(ts: seq<TableRec>)
    ensures MeasuresOf(ts).Ok? ==>
              forall i, k :: 0 <= i < |ts| && 0 <= k < |MeasureRecs(ts[i])| ==>
                && MeasuresBefore(ts, i) + k < |MeasuresOf(ts).value|
                && EntryFault(ts[i], MeasureRecs(ts[i])[k]).None?
                && MeasuresOf(ts).value[MeasuresBefore(ts, i) + k]
                   == Measure(ts[i].name.value, MeasureRecs(ts[i])[k].name.value, MeasureRecs(ts[i])[k].expression.value)
  {
    if MeasuresOf(ts).Ok? {
      MeasuresOfLayout(ts);
      forall i, k | 0 <= i < |ts| && 0 <= k < |MeasureRecs(ts[i])|
        ensures MeasuresBefore(ts, i) + k < |MeasuresOf(ts).value|
        ensures EntryFault(ts[i], MeasureRecs(ts[i])[k]).None?
        ensures MeasuresOf(ts).value[MeasuresBefore(ts, i) + k]
                == Measure(ts[i].name.value, MeasureRecs(ts[i])[k].name.value, MeasureRecs(ts[i])[k].expression.value)
      {
        EntryAt(ts, i, k);
      }
    }
  }

  /**
   * Entry `k` of table `i` stands at position `MeasuresBefore(ts, i) + k` of `all`, carrying
   * `names[i]` and the entry's `name` and `expression`.
   */
  predicate EntriesInPlace(ts: seq<TableRec>, names: seq<string>, all: seq<Measure>)
    requires |names| == |ts|
  {
    forall i, k :: 0 <= i < |ts| && 0 <= k < |MeasureRecs(ts[i])| ==>
      && MeasuresBefore(ts, i) + k < |all|
      && EntryFault(ts[i], MeasureRecs(ts[i])[k]).None?
      && all[MeasuresBefore(ts, i) + k]
         == Measure(names[i], MeasureRecs(ts[i])[k].name.value, MeasureRecs(ts[i])[k].expression.value)
  }

  /** With the table names read, every entry is in place under its table's name. */
  lemma NamedEntries(ts: seq<TableRec>, names: seq<string>, all: seq<Measure>)
    requires TableNames(ts) == Ok(names) && MeasuresOf(ts) == Ok(all)
    ensures |names| == |ts| && EntriesInPlace(ts, names, all)
  {
    forall i, k | 0 <= i < |ts| && 0 <= k < |MeasureRecs(ts[i])| {
      EntryAt(ts, i, k);
    }
  }

  /** One entry of one table, in the flattened measures. */
  lemma EntryAt(ts: seq<TableRec>, i: nat, k: nat)
    requires MeasuresOf(ts).Ok? && i < |ts| && k < |MeasureRecs(ts[i])|
    ensures MeasuresBefore(ts, i) + k < |MeasuresOf(ts).value|
    ensures EntryFault(ts[i], MeasureRecs(ts[i])[k]).None?
    ensures MeasuresOf(ts).value[MeasuresBefore(ts, i) + k]
            == Measure(ts[i].name.value, MeasureRecs(ts[i])[k].name.value, MeasureRecs(ts[i])[k].expression.value)
  {
    var all := MeasuresOf(ts).value;
    var block := BlockAt(ts, i, all);
    var b := MeasuresBefore(ts, i);
    TableEntryAt(ts[i], MeasureRecs(ts[i]), block, k);
    assert all[b + k] == all[b..b + |MeasureRecs(ts[i])|][k];
  }

  /** Table `i`'s block of the flattened measures. */
  lemma BlockAt(ts: seq<TableRec>, i: nat, all: seq<Measure>) returns (block: seq<Measure>)
    requires MeasuresOf(ts) == Ok(all) && i < |ts|
    ensures MeasuresBefore(ts, i) + |MeasureRecs(ts[i])| <= |all|
    ensures TableMeasures(ts[i], MeasureRecs(ts[i])) == Ok(block)
    ensures all[MeasuresBefore(ts, i)..MeasuresBefore(ts, i) + |MeasureRecs(ts[i])|] == block
  {
    MeasuresOfLayout(ts);
    block := TableMeasures(ts[i], MeasureRecs(ts[i])).value;
  }

  /** Entry `k` of one table's successful measures. */
  lemma TableEntryAt(t: TableRec, ms: seq<MeasureRec>, block: seq<Measure>, k: nat)
    requires TableMeasures(t, ms) == Ok(block) && k < |ms|
    ensures |block| == |ms| && EntryFault(t, ms[k]).None?
    ensures block[k] == Measure(t.name.value, ms[k].name.value, ms[k].expression.value)
  {
    TableMeasuresSpec(t, ms);
  }

  /** A block of the measures of the later tables moves right by the measures of the first table. */
  lemma LayoutShift(ts: seq<TableRec>, i: nat, first: seq<Measure>, tail: seq<Measure>, block: seq<Measure>)
    requires 0 < i < |ts| && |first| == |MeasureRecs(ts[0])|
    requires MeasuresBefore(ts[1..], i - 1) + |MeasureRecs(ts[i])| <= |tail|
    requires tail[MeasuresBefore(ts[1..], i - 1)..MeasuresBefore(ts[1..], i - 1) + |MeasureRecs(ts[i])|] == block
    ensures MeasuresBefore(ts, i) + |MeasureRecs(ts[i])| <= |first + tail|
    ensures (first + tail)[MeasuresBefore(ts, i)..MeasuresBefore(ts, i) + |MeasureRecs(ts[i])|] == block
  {
    var b, n := MeasuresBefore(ts[1..], i - 1), |MeasureRecs(ts[i])|;
    assert MeasuresBefore(ts, i) == |first| + b;
    assert (first + tail)[|first| + b..|first| + b + n] == tail[b..b + n];
  }


  /** `{"id", "tables", "measures", "pages", "relations": []}` plus the thin-report `note`. */
  function ThinReport(id: string, pages: seq<Page>): ReportRecord {
    ReportRecord(id, [], [], pages, [], Some(ThinReportNote))
  }

  /** The full-model branch of `extract_spec`, from the decoded model file (`None`: not JSON). */
  function AssembleReport(id: string, pages: seq<Page>, doc: Option<ModelDoc>): Result<ReportRecord, ExtractError> {
    if doc.None? then Err(MalformedModel(Undecodable))
    else if doc.value.model.None? then Err(MalformedModel(MissingKey("model")))
    else
      var body := doc.value.model.value;
      if body.tables.None? then Err(MalformedModel(MissingKey("tables")))
      else match TableNames(body.tables.value)
        case Err(f) => Err(MalformedModel(f))
        case Ok(tables) =>
          match MeasuresOf(body.tables.value)
          case Err(f) => Err(MalformedModel(f))
          case Ok(measures) =>
            var relations := if body.relationships.Some? then body.relationships.value else [];
            Ok(ReportRecord(id, tables, measures, pages, relations, None))
  }

  /**
   * A successfully assembled record: the table names in order; the measures table by table,
   * entry by entry, each with its table's name and its entry's `name` and `expression`;
   * relations passed through; no note.
   */
  lemma AssembledReport(id: string, pages: seq<Page>, doc: Option<ModelDoc>)
    requires AssembleReport(id, pages, doc).Ok?
    ensures var r := AssembleReport(id, pages, doc).value;
            var ts := doc.value.model.value.tables.value;
            && r.id == id && r.pages == pages && r.note.None?
            && |r.tables| == |ts| && (forall i :: 0 <= i < |ts| ==> ts[i].name == Some(r.tables[i]))
            && (forall m :: m in r.measures ==> m.table in r.tables)
            && |r.measures| == MeasureTotal(ts)
            && EntriesInPlace(ts, r.tables, r.measures)
            && r.relations == (if doc.value.model.value.relationships.Some?
                               then doc.value.model.value.relationships.value else [])
  {
    var r := AssembleReport(id, pages, doc).value;
    var ts := doc.value.model.value.tables.value;
    MeasuresOfSpec(ts);
    NamedEntries(ts, r.tables, r.measures);
    forall m | m in r.measures ensures m.table in r.tables {
      var i :| 0 <= i < |ts| && ts[i].name == Some(m.table);
      assert r.tables[i] == m.table;
    }
  }

  /**
   * When the full-model branch succeeds, and how it fails otherwise, in the order the
   * source meets the faults: an undecodable file, a missing `model` key, a missing
   * `tables` key, a table without `name`, then the first measure fault.
   */
  lemma AssembleReportOutcome(id: string, pages: seq<Page>, doc: Option<ModelDoc>)
    ensures AssembleReport(id, pages, doc).Ok?
            <==> && doc.Some? && doc.value.model.Some? && doc.value.model.value.tables.Some?
                 && TableNames(doc.value.model.value.tables.value).Ok?
                 && MeasuresOf(doc.value.model.value.tables.value).Ok?
    ensures doc.None? ==> AssembleReport(id, pages, doc) == Err(MalformedModel(Undecodable))
    ensures doc.Some? && doc.value.model.None?
            ==> AssembleReport(id, pages, doc) == Err(MalformedModel(MissingKey("model")))
    ensures doc.Some? && doc.value.model.Some? && doc.value.model.value.tables.None?
            ==> AssembleReport(id, pages, doc) == Err(MalformedModel(MissingKey("tables")))
    ensures doc.Some? && doc.value.model.Some? && doc.value.model.value.tables.Some?
            && TableNames(doc.value.model.value.tables.value).Err?
            ==> AssembleReport(id, pages, doc) == Err(MalformedModel(MissingKey("name")))
    ensures doc.Some? && doc.value.model.Some? && doc.value.model.value.tables.Some?
            && TableNames(doc.value.model.value.tables.value).Ok?
            && MeasuresOf(doc.value.model.value.tables.value).Err?
            ==> AssembleReport(id, pages, doc) == Err(MalformedModel(MeasuresOf(doc.value.model.value.tables.value).error))
  {
  }

  // ------------------------------------------------------------ extract_spec

  /** What the pbi-tools run returned. */
  datatype ToolRun = ToolRun(returncode: int, stderr: string)

  /** The outcome of `extract_spec`, given everything it observes. */
  function Extract(env: map<string, string>, regularFiles: set<string>, tool: ToolRun, listing: Listing,
                   layouts: seq<LayoutFile>, read: string -> Option<ModelDoc>, id: string): Result<ReportRecord, ExtractError>
  {
    match ToolPath(env, regularFiles)
    case Err(e) => Err(e)
    case Ok(_) =>
      if tool.returncode != 0 then Err(ToolFailed(Strip(tool.stderr)))
      else match PagesOf(layouts)
        case Err(e) => Err(e)
        case Ok(pages) =>
          match ModelFile(listing)
          case None => Ok(ThinReport(id, pages))
          case Some(path) => AssembleReport(id, pages, read(path))
  }

  /** Without a model file the record is a thin report: no tables, measures or relations, the layout pages, a note. */
  lemma ThinReportWhenNoModel(env: map<string, string>, regularFiles: set<string>, tool: ToolRun, listing: Listing,
                              layouts: seq<LayoutFile>, read: string -> Option<ModelDoc>, id: string)
    requires ConfiguredTool(env) in regularFiles && tool.returncode == 0
    requires forall j :: 0 <= j < |layouts| ==> layouts[j].content.Some?
    requires ModelFile(listing).None?
    ensures Extract(env, regularFiles, tool, listing, layouts, read, id).Ok?
    ensures var r := Extract(env, regularFiles, tool, listing, layouts, read, id).value;
            && r.tables == [] && r.measures == [] && r.relations == []
            && r.pages == PagesOf(layouts).value && r.note == Some(ThinReportNote)
  {
  }

  /** A record carries a note exactly when no model file was found; its pages are the layout pages either way. */
  lemma NoteMarksThinReport(env: map<string, string>, regularFiles: set<string>, tool: ToolRun, listing: Listing,
                            layouts: seq<LayoutFile>, read: string -> Option<ModelDoc>, id: string)
    requires Extract(env, regularFiles, tool, listing, layouts, read, id).Ok?
    ensures var r := Extract(env, regularFiles, tool, listing, layouts, read, id).value;
            && (r.note.Some? <==> ModelFile(listing).None?)
            && r.id == id && PagesOf(layouts).Ok? && r.pages == PagesOf(layouts).value
  {
  }

  /** Every measure of an extracted record names one of its tables. */
  lemma MeasuresNameTheirTables(env: map<string, string>, regularFiles: set<string>, tool: ToolRun, listing: Listing,
                                layouts: seq<LayoutFile>, read: string -> Option<ModelDoc>, id: string)
    requires Extract(env, regularFiles, tool, listing, layouts, read, id).Ok?
    ensures var r := Extract(env, regularFiles, tool, listing, layouts, read, id).value;
            forall m :: m in r.measures ==> m.table in r.tables
  {
    match ModelFile(listing)
    case None =>
    case Some(path) =>
      AssembledReport(id, PagesOf(layouts).value, read(path));
  }

  /**
   * The failure paths before the model file is read: a missing executable, then a non-zero
   * exit code carrying the stripped error text, then the first layout file that is not JSON.
   */
  lemma ExtractFailures(env: map<string, string>, regularFiles: set<string>, tool: ToolRun, listing: Listing,
                        layouts: seq<LayoutFile>, read: string -> Option<ModelDoc>, id: string)
    ensures ConfiguredTool(env) !in regularFiles
            ==> Extract(env, regularFiles, tool, listing, layouts, read, id) == Err(ToolsMissing(ConfiguredTool(env)))
    ensures ConfiguredTool(env) in regularFiles && tool.returncode != 0
            ==> Extract(env, regularFiles, tool, listing, layouts, read, id) == Err(ToolFailed(Strip(tool.stderr)))
    ensures ConfiguredTool(env) in regularFiles && tool.returncode == 0 && PagesOf(layouts).Err?
            ==> exists j :: 0 <= j < |layouts| && layouts[j].content.None?
                            && (forall i :: 0 <= i < j ==> layouts[i].content.Some?)
                            && Extract(env, regularFiles, tool, listing, layouts, read, id)
                               == Err(MalformedLayout(layouts[j].stem))
  {
  }

  /** With the tool run, the pages read and a model file found, the outcome is the full-model branch on that file. */
  lemma ExtractWithModel(env: map<string, string>, regularFiles: set<string>, tool: ToolRun, listing: Listing,
                         layouts: seq<LayoutFile>, read: string -> Option<ModelDoc>, id: string)
    requires ConfiguredTool(env) in regularFiles && tool.returncode == 0
    requires PagesOf(layouts).Ok? && ModelFile(listing).Some?
    ensures Extract(env, regularFiles, tool, listing, layouts, read, id)
            == AssembleReport(id, PagesOf(layouts).value, read(ModelFile(listing).value))
  {
  }

  /** Two extractions of the same container differ only in their `id`. */
  lemma ExtractionDependsOnIdOnlyInId(env: map<string, string>, regularFiles: set<string>, tool: ToolRun, listing: Listing,
                                      layouts: seq<LayoutFile>, read: string -> Option<ModelDoc>, id1: string, id2: string)
    ensures Extract(env, regularFiles, tool, listing, layouts, read, id1).Ok?
        <==> Extract(env, regularFiles, tool, listing, layouts, read, id2).Ok?
    ensures Extract(env, regularFiles, tool, listing, layouts, read, id1).Ok? ==>
              Extract(env, regularFiles, tool, listing, layouts, read, id2)
              == Ok(Extract(env, regularFiles, tool, listing, layouts, read, id1).value.(id := id2))
  {
  }

  /** The working directory of one extraction. */
  class WorkDir {
    /** `tempfile.mkdtemp` has run. */
    var created: bool
    /** The directory is currently on disk. */
    var onDisk: bool

    constructor ()
      ensures !created && !onDisk
    {
      created, onDisk := false, false;
    }

    /** `tempfile.mkdtemp(prefix="pbix_extract_")`. */
    method Make()
      modifies this
      ensures created && onDisk
    {
      created, onDisk := true, true;
    }

    /** `shutil.rmtree(tmp, ignore_errors=True)`. */
    method Remove()
      modifies this
      ensures !onDisk && created == old(created)
    {
      onDisk := false;
    }
  }

  /**
   * `extract_spec(pbix_path)`: locate the tool, make the working directory, run the
   * tool, read pages and model, and remove the directory whatever happened.
   */
  method ExtractSpec(dir: WorkDir, env: map<string, string>, regularFiles: set<string>, tool: ToolRun,
                     listing: Listing, layouts: seq<LayoutFile>, read: string -> Option<ModelDoc>, id: string)
    returns (r: Result<ReportRecord, ExtractError>)
    requires !dir.created && !dir.onDisk
    modifies dir
    ensures r == Extract(env, regularFiles, tool, listing, layouts, read, id)
    ensures !dir.onDisk
    ensures dir.created <==> !(r.Err? && r.error.ToolsMissing?)
  {
    var exe := ToolPath(env, regularFiles);
    if exe.Err? {
      return Err(exe.error);
    }
    dir.Make();
    // try
    if tool.returncode != 0 {
      r := Err(ToolFailed(Strip(tool.stderr)));
    } else {
      var pages := ExtractPages(layouts);
      if pages.Err? {
        r := Err(pages.error);
      } else {
        var modelPath := FindModelFile(listing);
        if modelPath.None? {
          r := Ok(ThinReport(id, pages.value));
        } else {
          r := AssembleReport(id, pages.value, read(modelPath.value));
        }
      }
    }
    // finally
    dir.Remove();
  }
}
