/**
 * `build_context(q, spec)` of backend/app/chat.py: the text handed to the language
 * model as grounding for the question `q`. Three passes over the report record
 * append lines to a list: measures whose name occurs in the question, tables whose
 * name occurs in the question, and fields of visuals in which the question occurs.
 * All three use case-insensitive literal substring search. The lines are joined
 * with newlines; an empty result is replaced by a fixed sentinel.
 *
 * `ContextLines` describes the lines as data and `ContextOf` the final text; the
 * method `BuildContext` is the loop program of the source, proved to produce
 * `ContextOf`. The lemmas state the promised properties of `ContextLines`.
 */
module ContextMatcher {
  import opened Wrappers
  import opened Text
  import opened Report

  /** Returned when no pass produced a line. */
  const NoContext: string := "Pas de contexte direct trouvé."

  /** One appended line, before rendering. */
  datatype ContextLine =
    | MeasureLine(name: string, expr: string)
    | TableLine(table: string)
    | FieldLine(field: Field, page: string)

  /** The f-strings of the three passes. */
  function Render(l: ContextLine): string {
    match l
    case MeasureLine(n, e) => "Mesure " + n + " = " + e
    case TableLine(t) => "Table présente : " + t
    case FieldLine(f, p) => "Champ " + f + " utilisé dans la page " + p
  }

  /** The pass that produces a line: 0 for measures, 1 for tables, 2 for fields. */
  function Pass(l: ContextLine): nat {
    match l
    case MeasureLine(_, _) => 0
    case TableLine(_) => 1
    case FieldLine(_, _) => 2
  }

  function RenderAll(lines: seq<ContextLine>): (r: seq<string>)
    ensures |r| == |lines|
  {
    seq(|lines|, k requires 0 <= k < |lines| => Render(lines[k]))
  }

  lemma RenderAllConcat(a: seq<ContextLine>, b: seq<ContextLine>)
    ensures RenderAll(a + b) == RenderAll(a) + RenderAll(b)
  {
    assert forall k :: 0 <= k < |a + b| ==> RenderAll(a + b)[k] == (RenderAll(a) + RenderAll(b))[k];
  }

  // ---------------------------------------------------------------- pass 1

  /** The line measure `m` contributes: one when its name occurs in the question. */
  function MeasureHit(q: string, m: Measure): seq<ContextLine> {
    if ContainsCI(q, m.name) then [MeasureLine(m.name, m.expr)] else []
  }

  /** The lines of the measure pass, in measure order. */
  function MeasureLines(q: string, ms: seq<Measure>): (r: seq<ContextLine>)
    ensures |r| <= |ms|
    ensures forall k :: 0 <= k < |r| ==> r[k].MeasureLine?
    decreases |ms|
  {
    if ms == [] then [] else MeasureLines(q, ms[..|ms| - 1]) + MeasureHit(q, ms[|ms| - 1])
  }

  // ---------------------------------------------------------------- pass 2

  function TableHit(q: string, t: string): seq<ContextLine> {
    if ContainsCI(q, t) then [TableLine(t)] else []
  }

  /** The lines of the table pass, in table order. */
  function TableLines(q: string, ts: seq<string>): (r: seq<ContextLine>)
    ensures |r| <= |ts|
    ensures forall k :: 0 <= k < |r| ==> r[k].TableLine?
    decreases |ts|
  {
    if ts == [] then [] else TableLines(q, ts[..|ts| - 1]) + TableHit(q, ts[|ts| - 1])
  }

  // ---------------------------------------------------------------- pass 3

  /** The pass runs the other way round: the question is searched for inside the field. */
  function FieldHit(q: string, page: string, f: Field): seq<ContextLine> {
    if ContainsCI(f, q) then [FieldLine(f, page)] else []
  }

  function FieldHits(q: string, page: string, fs: seq<Field>): (r: seq<ContextLine>)
    ensures |r| <= |fs|
    ensures forall k :: 0 <= k < |r| ==> r[k].FieldLine?
    decreases |fs|
  {
    if fs == [] then [] else FieldHits(q, page, fs[..|fs| - 1]) + FieldHit(q, page, fs[|fs| - 1])
  }

  /** The number of fields of a sequence of visuals. */
  function VisualFieldCount(vs: seq<Visual>): nat
    decreases |vs|
  {
    if vs == [] then 0 else VisualFieldCount(vs[..|vs| - 1]) + |vs[|vs| - 1].fields|
  }

  /** The number of fields of all visuals of all pages. */
  function FieldCount(ps: seq<Page>): nat
    decreases |ps|
  {
    if ps == [] then 0 else FieldCount(ps[..|ps| - 1]) + VisualFieldCount(ps[|ps| - 1].visuals)
  }

  function VisualHits(q: string, page: string, vs: seq<Visual>): (r: seq<ContextLine>)
    ensures |r| <= VisualFieldCount(vs)
    ensures forall k :: 0 <= k < |r| ==> r[k].FieldLine?
    decreases |vs|
  {
    if vs == [] then [] else VisualHits(q, page, vs[..|vs| - 1]) + FieldHits(q, page, vs[|vs| - 1].fields)
  }

  /** The lines of the field pass, page by page, visual by visual, field by field. */
  function FieldLines(q: string, ps: seq<Page>): (r: seq<ContextLine>)
    ensures forall k :: 0 <= k < |r| ==> r[k].FieldLine?
    decreases |ps|
  {
    if ps == [] then [] else FieldLines(q, ps[..|ps| - 1]) + VisualHits(q, ps[|ps| - 1].name, ps[|ps| - 1].visuals)
  }

  /** The field pass reports each field at most once. */
  lemma {:induction false} FieldLinesBound(q: string, ps: seq<Page>)
    ensures |FieldLines(q, ps)| <= FieldCount(ps)
    decreases |ps|
  {
    if ps != [] {
      FieldLinesBound(q, ps[..|ps| - 1]);
    }
  }

  // ---------------------------------------------------------------- result

  /** All appended lines, in the order of the passes. */
  function ContextLines(q: string, spec: ReportRecord): (r: seq<ContextLine>)
    ensures |r| <= |spec.measures| + |spec.tables| + FieldCount(spec.pages)
  {
    FieldLinesBound(q, spec.pages);
    MeasureLines(q, spec.measures) + TableLines(q, spec.tables) + FieldLines(q, spec.pages)
  }

  /** `"\n".join(ctx) or NoContext`. */
  function Finish(ctx: seq<string>): string {
    var joined := Join(ctx, "\n");
    if joined == "" then NoContext else joined
  }

  /** What `build_context(q, spec)` returns. */
  function ContextOf(q: string, spec: ReportRecord): string {
    Finish(RenderAll(ContextLines(q, spec)))
  }

  // ------------------------------------------------------------ properties

  /** Every rendered line starts with a letter other than the sentinel's first letter. */
  lemma RenderedLineStart(l: ContextLine)
    ensures |Render(l)| > 0 && Render(l)[0] != NoContext[0]
  {
    match l
    case MeasureLine(n, e) => assert Render(l)[0] == 'M';
    case TableLine(t) => assert Render(l)[0] == 'T';
    case FieldLine(f, p) => assert Render(l)[0] == 'C';
  }

  /** The sentinel comes back exactly when no pass appended a line; otherwise the lines joined by newlines. */
  lemma NoContextIffNoLines(q: string, spec: ReportRecord)
    ensures ContextOf(q, spec) == NoContext <==> ContextLines(q, spec) == []
    ensures ContextLines(q, spec) != [] ==> ContextOf(q, spec) == Join(RenderAll(ContextLines(q, spec)), "\n")
  {
    var lines := ContextLines(q, spec);
    if lines != [] {
      var ctx := RenderAll(lines);
      JoinStartsWithFirst(ctx, "\n");
      RenderedLineStart(lines[0]);
      var joined := Join(ctx, "\n");
      assert joined[0] == ctx[0][0];
    }
  }

  lemma {:induction false} MeasureLinesMembership(q: string, ms: seq<Measure>, l: ContextLine)
    ensures l in MeasureLines(q, ms) <==> exists m :: m in ms && l == MeasureLine(m.name, m.expr) && ContainsCI(q, m.name)
    decreases |ms|
  {
    if ms != [] {
      var init := ms[..|ms| - 1];
      MeasureLinesMembership(q, init, l);
      assert ms == init + [ms[|ms| - 1]];
    }
  }

  lemma {:induction false} TableLinesMembership(q: string, ts: seq<string>, l: ContextLine)
    ensures l in TableLines(q, ts) <==> exists t :: t in ts && l == TableLine(t) && ContainsCI(q, t)
    decreases |ts|
  {
    if ts != [] {
      var init := ts[..|ts| - 1];
      TableLinesMembership(q, init, l);
      assert ts == init + [ts[|ts| - 1]];
    }
  }

  lemma {:induction false} FieldHitsMembership(q: string, page: string, fs: seq<Field>, l: ContextLine)
    ensures l in FieldHits(q, page, fs) <==> exists f :: f in fs && l == FieldLine(f, page) && ContainsCI(f, q)
    decreases |fs|
  {
    if fs != [] {
      var init := fs[..|fs| - 1];
      FieldHitsMembership(q, page, init, l);
      assert fs == init + [fs[|fs| - 1]];
    }
  }

  lemma {:induction false} VisualHitsMembership(q: string, page: string, vs: seq<Visual>, l: ContextLine)
    ensures l in VisualHits(q, page, vs)
        <==> exists v, f :: v in vs && f in v.fields && l == FieldLine(f, page) && ContainsCI(f, q)
    decreases |vs|
  {
    if vs != [] {
      var init, last := vs[..|vs| - 1], vs[|vs| - 1];
      VisualHitsMembership(q, page, init, l);
      FieldHitsMembership(q, page, last.fields, l);
      assert vs == init + [last];
    }
  }

  lemma {:induction false} FieldLinesMembership(q: string, ps: seq<Page>, l: ContextLine)
    ensures l in FieldLines(q, ps)
        <==> exists p, v, f :: p in ps && v in p.visuals && f in v.fields && l == FieldLine(f, p.name) && ContainsCI(f, q)
    decreases |ps|
  {
    if ps != [] {
      var init, last := ps[..|ps| - 1], ps[|ps| - 1];
      FieldLinesMembership(q, init, l);
      VisualHitsMembership(q, last.name, last.visuals, l);
      assert ps == init + [last];
    }
  }

  /** A measure line is emitted exactly for the measures whose name occurs in the question. */
  lemma MeasureLineIff(q: string, spec: ReportRecord, name: string, expr: string)
    ensures MeasureLine(name, expr) in ContextLines(q, spec)
        <==> (exists m :: m in spec.measures && m.name == name && m.expr == expr) && ContainsCI(q, name)
  {
    MeasureLinesMembership(q, spec.measures, MeasureLine(name, expr));
  }

  /** A table line is emitted exactly for the tables whose name occurs in the question. */
  lemma TableLineIff(q: string, spec: ReportRecord, t: string)
    ensures TableLine(t) in ContextLines(q, spec) <==> t in spec.tables && ContainsCI(q, t)
  {
    TableLinesMembership(q, spec.tables, TableLine(t));
  }

  /** A field line is emitted exactly for the fields that contain the question, naming their page. */
  lemma FieldLineIff(q: string, spec: ReportRecord, f: Field, page: string)
    ensures FieldLine(f, page) in ContextLines(q, spec)
        <==> exists p, v :: p in spec.pages && p.name == page && v in p.visuals && f in v.fields && ContainsCI(f, q)
  {
    FieldLinesMembership(q, spec.pages, FieldLine(f, page));
  }

  /** A measure with an empty name is reported for every question. */
  lemma EmptyNameMatchesEveryQuestion(q: string, spec: ReportRecord, m: Measure)
    requires m in spec.measures && m.name == ""
    ensures MeasureLine("", m.expr) in ContextLines(q, spec)
  {
    EmptyPatternMatches(q);
    MeasureLineIff(q, spec, "", m.expr);
  }

  /** A table with an empty name is reported for every question. */
  lemma EmptyTableMatchesEveryQuestion(q: string, spec: ReportRecord)
    requires "" in spec.tables
    ensures TableLine("") in ContextLines(q, spec)
  {
    EmptyPatternMatches(q);
    TableLineIff(q, spec, "");
  }

  lemma {:induction false} EmptyQuestionFieldHits(page: string, fs: seq<Field>)
    ensures |FieldHits("", page, fs)| == |fs|
    decreases |fs|
  {
    if fs != [] {
      EmptyQuestionFieldHits(page, fs[..|fs| - 1]);
      EmptyPatternMatches(fs[|fs| - 1]);
    }
  }

  lemma {:induction false} EmptyQuestionVisualHits(page: string, vs: seq<Visual>)
    ensures |VisualHits("", page, vs)| == VisualFieldCount(vs)
    decreases |vs|
  {
    if vs != [] {
      EmptyQuestionVisualHits(page, vs[..|vs| - 1]);
      EmptyQuestionFieldHits(page, vs[|vs| - 1].fields);
    }
  }

  /** An empty question occurs in every field, so the field pass reports every field. */
  lemma {:induction false} EmptyQuestionMatchesEveryField(ps: seq<Page>)
    ensures |FieldLines("", ps)| == FieldCount(ps)
    decreases |ps|
  {
    if ps != [] {
      EmptyQuestionMatchesEveryField(ps[..|ps| - 1]);
      EmptyQuestionVisualHits(ps[|ps| - 1].name, ps[|ps| - 1].visuals);
    }
  }

  /** Measure lines come first, then table lines, then field lines. */
  lemma PassesInOrder(q: string, spec: ReportRecord)
    ensures forall i, j :: 0 <= i < j < |ContextLines(q, spec)|
              ==> Pass(ContextLines(q, spec)[i]) <= Pass(ContextLines(q, spec)[j])
  {
    var a, b, c := MeasureLines(q, spec.measures), TableLines(q, spec.tables), FieldLines(q, spec.pages);
    var lines := ContextLines(q, spec);
    assert lines == a + b + c;
    forall k | 0 <= k < |lines|
      ensures Pass(lines[k]) == if k < |a| then 0 else if k < |a| + |b| then 1 else 2
    {
      if k < |a| {
        assert lines[k] == a[k];
      } else if k < |a| + |b| {
        assert lines[k] == b[k - |a|];
      } else {
        assert lines[k] == c[k - |a| - |b|];
      }
    }
  }

  /** Within the measure pass the measures' order is kept: earlier measures' lines come first. */
  lemma {:induction false} MeasureLinesConcat(q: string, a: seq<Measure>, b: seq<Measure>)
    ensures MeasureLines(q, a + b) == MeasureLines(q, a) + MeasureLines(q, b)
    decreases |b|
  {
    if b == [] {
      assert a + b == a;
    } else {
      assert (a + b)[..|a + b| - 1] == a + b[..|b| - 1];
      MeasureLinesConcat(q, a, b[..|b| - 1]);
    }
  }

  /** Within the table pass the tables' order is kept. */
  lemma {:induction false} TableLinesConcat(q: string, a: seq<string>, b: seq<string>)
    ensures TableLines(q, a + b) == TableLines(q, a) + TableLines(q, b)
    decreases |b|
  {
    if b == [] {
      assert a + b == a;
    } else {
      assert (a + b)[..|a + b| - 1] == a + b[..|b| - 1];
      TableLinesConcat(q, a, b[..|b| - 1]);
    }
  }

  /** Within the field pass the pages' order is kept. */
  lemma {:induction false} FieldLinesConcat(q: string, a: seq<Page>, b: seq<Page>)
    ensures FieldLines(q, a + b) == FieldLines(q, a) + FieldLines(q, b)
    decreases |b|
  {
    if b == [] {
      assert a + b == a;
    } else {
      var init, last := b[..|b| - 1], b[|b| - 1];
      var hits := VisualHits(q, last.name, last.visuals);
      assert a + b == (a + init) + [last];
      calc {
        FieldLines(q, a + b);
        { FieldLinesStep(q, a + init, last); }
        FieldLines(q, a + init) + hits;
        { FieldLinesConcat(q, a, init); }
        (FieldLines(q, a) + FieldLines(q, init)) + hits;
        FieldLines(q, a) + (FieldLines(q, init) + hits);
        { assert b == init + [last]; FieldLinesStep(q, init, last); }
        FieldLines(q, a) + FieldLines(q, b);
      }
    }
  }

  /** Appending a page appends its lines. */
  lemma FieldLinesStep(q: string, ps: seq<Page>, p: Page)
    ensures FieldLines(q, ps + [p]) == FieldLines(q, ps) + VisualHits(q, p.name, p.visuals)
  {
    assert (ps + [p])[..|ps|] == ps;
  }

  /** Every emitted line stands in the returned text. */
  lemma EmittedLineInContext(q: string, spec: ReportRecord, k: nat)
    requires k < |ContextLines(q, spec)|
    ensures Contains(ContextOf(q, spec), Render(ContextLines(q, spec)[k]))
  {
    NoContextIffNoLines(q, spec);
    var ctx := RenderAll(ContextLines(q, spec));
    var pre, post := JoinAround(ctx, "\n", k);
    var line := ctx[k];
    assert (pre + line + post)[|pre|..|pre| + |line|] == line;
    ContainsAt(ContextOf(q, spec), line, |pre|);
  }

  lemma RevenueQuestionNamesRevenue()
    ensures ContainsCI("How is Revenue computed?", "Revenue")
  {
    var q := "How is Revenue computed?";
    assert Lower("Revenue") == "revenue";
    assert Lower(q)[7..14] == "revenue";
    ContainsAt(Lower(q), Lower("Revenue"), 7);
  }

  /** When the first measure is mentioned, its line opens the context. */
  lemma FirstMeasureLeads(q: string, spec: ReportRecord)
    requires spec.measures != [] && ContainsCI(q, spec.measures[0].name)
    ensures ContextLines(q, spec) != []
    ensures ContextLines(q, spec)[0] == MeasureLine(spec.measures[0].name, spec.measures[0].expr)
  {
    var ms := spec.measures;
    MeasureLinesConcat(q, [ms[0]], ms[1..]);
    assert [ms[0]] + ms[1..] == ms;
    assert [ms[0]][..0] == [];
    var first := MeasureLines(q, [ms[0]]);
    assert first == [MeasureLine(ms[0].name, ms[0].expr)];
    var measureLines := MeasureLines(q, ms);
    assert measureLines[0] == first[0];
    var head := measureLines + TableLines(q, spec.tables);
    assert head[0] == measureLines[0];
    assert ContextLines(q, spec)[0] == head[0];
  }

  /** The worked example: a question naming the measure "Revenue" gets its formula back. */
  lemma RevenueExample(id: string, table: string, tables: seq<string>, pages: seq<Page>,
                       relations: seq<Relation>, note: Option<string>)
    ensures Contains(
      ContextOf("How is Revenue computed?",
                ReportRecord(id, tables, [Measure(table, "Revenue", "SUM(Sales[Amount])")], pages, relations, note)),
      "Mesure Revenue = SUM(Sales[Amount])")
  {
    var q := "How is Revenue computed?";
    var spec := ReportRecord(id, tables, [Measure(table, "Revenue", "SUM(Sales[Amount])")], pages, relations, note);
    RevenueQuestionNamesRevenue();
    FirstMeasureLeads(q, spec);
    EmittedLineInContext(q, spec, 0);
    RevenueLineText();
  }

  lemma RevenueLineText()
    ensures Render(MeasureLine("Revenue", "SUM(Sales[Amount])")) == "Mesure Revenue = SUM(Sales[Amount])"
  {
  }

  /** `build_context`: the three passes append to one list `ctx`, which is then joined. */
  method BuildContext(q: string, spec: ReportRecord) returns (r: string)
    ensures r == ContextOf(q, spec)
  {
    var ctx: seq<string> := [];
    ctx := AppendMeasureLines(q, spec.measures, ctx);
    ctx := AppendTableLines(q, spec.tables, ctx);
    ctx := AppendFieldLines(q, spec.pages, ctx);
    ContextLinesRendered(q, spec);
    assert [] + RenderAll(MeasureLines(q, spec.measures)) == RenderAll(MeasureLines(q, spec.measures));
    r := Join(ctx, "\n");
    if r == "" {
      r := NoContext;
    }
  }

  /** The measure loop (chat.py lines 14-16). */
  method AppendMeasureLines(q: string, ms: seq<Measure>, ctx0: seq<string>) returns (ctx: seq<string>)
    ensures ctx == ctx0 + RenderAll(MeasureLines(q, ms))
  {
    ctx := ctx0;
    var i := 0;
    while i < |ms|
      invariant i <= |ms|
      invariant ctx == ctx0 + RenderAll(MeasureLines(q, ms[..i]))
    {
      var m := ms[i];
      if ContainsCI(q, m.name) {
        ctx := ctx + ["Mesure " + m.name + " = " + m.expr];
      }
      MeasureStep(q, ms, i, ctx0);
      i := i + 1;
    }
    assert ms[..i] == ms;
  }

  /** The table loop (chat.py lines 18-20). */
  method AppendTableLines(q: string, ts: seq<string>, ctx0: seq<string>) returns (ctx: seq<string>)
    ensures ctx == ctx0 + RenderAll(TableLines(q, ts))
  {
    ctx := ctx0;
    var i := 0;
    while i < |ts|
      invariant i <= |ts|
      invariant ctx == ctx0 + RenderAll(TableLines(q, ts[..i]))
    {
      var t := ts[i];
      if ContainsCI(q, t) {
        ctx := ctx + ["Table présente : " + t];
      }
      TableStep(q, ts, i, ctx0);
      i := i + 1;
    }
    assert ts[..i] == ts;
  }

  /** The outer loop over pages (chat.py line 22). */
  method AppendFieldLines(q: string, ps: seq<Page>, ctx0: seq<string>) returns (ctx: seq<string>)
    ensures ctx == ctx0 + RenderAll(FieldLines(q, ps))
  {
    ctx := ctx0;
    var i := 0;
    while i < |ps|
      invariant i <= |ps|
      invariant ctx == ctx0 + RenderAll(FieldLines(q, ps[..i]))
    {
      ctx := AppendVisualLines(q, ps[i].name, ps[i].visuals, ctx);
      PageStep(q, ps, i, ctx0);
      i := i + 1;
    }
    assert ps[..i] == ps;
  }

  /** The middle loop over the visuals of one page (chat.py line 23). */
  method AppendVisualLines(q: string, page: string, vs: seq<Visual>, ctx0: seq<string>) returns (ctx: seq<string>)
    ensures ctx == ctx0 + RenderAll(VisualHits(q, page, vs))
  {
    ctx := ctx0;
    var i := 0;
    while i < |vs|
      invariant i <= |vs|
      invariant ctx == ctx0 + RenderAll(VisualHits(q, page, vs[..i]))
    {
      ctx := AppendFieldHits(q, page, vs[i].fields, ctx);
      VisualStep(q, page, vs, i, ctx0);
      i := i + 1;
    }
    assert vs[..i] == vs;
  }

  /** The inner loop over the fields of one visual (chat.py lines 24-26). */
  method AppendFieldHits(q: string, page: string, fs: seq<Field>, ctx0: seq<string>) returns (ctx: seq<string>)
    ensures ctx == ctx0 + RenderAll(FieldHits(q, page, fs))
  {
    ctx := ctx0;
    var i := 0;
    while i < |fs|
      invariant i <= |fs|
      invariant ctx == ctx0 + RenderAll(FieldHits(q, page, fs[..i]))
    {
      var fld := fs[i];
      if ContainsCI(fld, q) {
        ctx := ctx + ["Champ " + fld + " utilisé dans la page " + page];
      }
      FieldStep(q, page, fs, i, ctx0);
      i := i + 1;
    }
    assert fs[..i] == fs;
  }

  // ------------------------------------------------ one loop iteration each

  lemma ContextLinesRendered(q: string, spec: ReportRecord)
    ensures RenderAll(ContextLines(q, spec))
         == RenderAll(MeasureLines(q, spec.measures)) + RenderAll(TableLines(q, spec.tables))
            + RenderAll(FieldLines(q, spec.pages))
  {
    RenderAllConcat(MeasureLines(q, spec.measures), TableLines(q, spec.tables));
    RenderAllConcat(MeasureLines(q, spec.measures) + TableLines(q, spec.tables), FieldLines(q, spec.pages));
  }

  lemma MeasureStep(q: string, ms: seq<Measure>, i: nat, ctx0: seq<string>)
    requires i < |ms|
    ensures ctx0 + RenderAll(MeasureLines(q, ms[..i])) + RenderAll(MeasureHit(q, ms[i]))
         == ctx0 + RenderAll(MeasureLines(q, ms[..i + 1]))
  {
    assert ms[..i + 1][..i] == ms[..i];
    RenderAllConcat(MeasureLines(q, ms[..i]), MeasureHit(q, ms[i]));
  }

  lemma TableStep(q: string, ts: seq<string>, i: nat, ctx0: seq<string>)
    requires i < |ts|
    ensures ctx0 + RenderAll(TableLines(q, ts[..i])) + RenderAll(TableHit(q, ts[i]))
         == ctx0 + RenderAll(TableLines(q, ts[..i + 1]))
  {
    assert ts[..i + 1][..i] == ts[..i];
    RenderAllConcat(TableLines(q, ts[..i]), TableHit(q, ts[i]));
  }

  lemma PageStep(q: string, ps: seq<Page>, i: nat, ctx0: seq<string>)
    requires i < |ps|
    ensures ctx0 + RenderAll(FieldLines(q, ps[..i])) + RenderAll(VisualHits(q, ps[i].name, ps[i].visuals))
         == ctx0 + RenderAll(FieldLines(q, ps[..i + 1]))
  {
    assert ps[..i + 1][..i] == ps[..i];
    RenderAllConcat(FieldLines(q, ps[..i]), VisualHits(q, ps[i].name, ps[i].visuals));
  }

  lemma VisualStep(q: string, page: string, vs: seq<Visual>, i: nat, ctx0: seq<string>)
    requires i < |vs|
    ensures ctx0 + RenderAll(VisualHits(q, page, vs[..i])) + RenderAll(FieldHits(q, page, vs[i].fields))
         == ctx0 + RenderAll(VisualHits(q, page, vs[..i + 1]))
  {
    assert vs[..i + 1][..i] == vs[..i];
    RenderAllConcat(VisualHits(q, page, vs[..i]), FieldHits(q, page, vs[i].fields));
  }

  lemma FieldStep(q: string, page: string, fs: seq<Field>, i: nat, ctx0: seq<string>)
    requires i < |fs|
    ensures ctx0 + RenderAll(FieldHits(q, page, fs[..i])) + RenderAll(FieldHit(q, page, fs[i]))
         == ctx0 + RenderAll(FieldHits(q, page, fs[..i + 1]))
  {
    assert fs[..i + 1][..i] == fs[..i];
    RenderAllConcat(FieldHits(q, page, fs[..i]), FieldHit(q, page, fs[i]));
  }
}
