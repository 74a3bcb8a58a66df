/**
 * backend/app/generate_narrative.py: the prompt that asks the language model for a
 * functional specification of a report. The date is a parameter (`today`, already
 * formatted as day/month/year) and the model call itself is not modelled.
 */
module Narrative {
  import opened Wrappers
  import opened Text
  import opened Report

  /** The marker `_short` appends to a truncated list. */
  const Ellipsis: string := "…"

  /** `_short`'s default cap, used for the measures. */
  const MeasureCap: nat := 15

  /** The cap used for the table names. */
  const TableCap: nat := 20

  /** `_short(items, n)`: the list itself, or its first `n` elements followed by the marker. */
  function Short<T>(items: seq<T>, n: nat, more: T): (r: seq<T>)
    ensures |items| <= n ==> r == items
    ensures |items| > n ==> |r| == n + 1 && r[..n] == items[..n] && r[n] == more
  {
    if |items| <= n then items else items[..n] + [more]
  }

  /** Shortening a shortened list changes nothing, and keeps at most `n + 1` elements. */
  lemma ShortIdempotent<T>(items: seq<T>, n: nat, more: T)
    ensures Short(Short(items, n, more), n, more) == Short(items, n, more)
    ensures |Short(items, n, more)| <= n + 1
  {
    if |items| > n {
      var s := Short(items, n, more);
      assert s[..n] + [s[n]] == s;
    }
  }

  /** An element of the shortened measure list: a measure record, or the marker string. */
  datatype Cell = MeasureCell(measure: Measure) | Marker(text: string)

  /** Subscripting the marker string with `'name'` raises `TypeError`. */
  datatype NarrativeError = StringIndexedByKey(text: string)

  /** The bullet of one measure: its name in bold, its DAX expression in backquotes. */
  function KpiText(m: Measure): (r: string)
    ensures |r| >= 1 && r[0] == '-' && r[|r| - 1] == '`'
  {
    "- **" + m.name + "** : `" + m.expr + "`"
  }

  /** The bullet of one page: its name in bold and its number of visuals. */
  function PageLine(p: Page): (r: string)
    ensures |r| >= 1 && r[0] == '-' && r[|r| - 1] == ')'
  {
    "- **" + p.name + "** (" + NatToString(|p.visuals|) + " visuels)"
  }

  /** `_short(spec["measures"])`. */
  function KpiCells(ms: seq<Measure>): seq<Cell> {
    Short(seq(|ms|, i requires 0 <= i < |ms| => MeasureCell(ms[i])), MeasureCap, Marker(Ellipsis))
  }

  /** The generator of measure bullets, evaluated in order; the first marker raises. */
  function RenderCells(cells: seq<Cell>): (r: Result<seq<string>, NarrativeError>)
    ensures r.Ok? <==> forall i :: 0 <= i < |cells| ==> cells[i].MeasureCell?
    ensures r.Ok? ==> |r.value| == |cells| && forall i :: 0 <= i < |cells| ==> r.value[i] == KpiText(cells[i].measure)
    ensures r.Err? ==> exists i :: 0 <= i < |cells| && cells[i].Marker? && r.error == StringIndexedByKey(cells[i].text)
                                   && forall j :: 0 <= j < i ==> cells[j].MeasureCell?
  {
    if cells == [] then Ok([])
    else match cells[0]
      case Marker(t) => Err(StringIndexedByKey(t))
      case MeasureCell(m) =>
        match RenderCells(cells[1..])
        case Err(e) => Err(e)
        case Ok(rest) => Ok([KpiText(m)] + rest)
  }

  /** `kpi_lines`. */
  function KpiLines(ms: seq<Measure>): Result<string, NarrativeError> {
    match RenderCells(KpiCells(ms))
    case Err(e) => Err(e)
    case Ok(lines) => Ok(Join(lines, "\n"))
  }

  /** The bullet of every measure, in order. */
  function KpiTexts(ms: seq<Measure>): (r: seq<string>)
    ensures |r| == |ms| && forall i :: 0 <= i < |ms| ==> r[i] == KpiText(ms[i])
  {
    seq(|ms|, i requires 0 <= i < |ms| => KpiText(ms[i]))
  }

  /**
   * The measure bullets render only when there are at most fifteen measures; past that,
   * the marker appended by `_short` is subscripted like a record and raises.
   */
  lemma KpiLinesSpec(ms: seq<Measure>)
    ensures KpiLines(ms).Ok? <==> |ms| <= MeasureCap
    ensures KpiLines(ms).Ok? ==> KpiLines(ms).value == Join(KpiTexts(ms), "\n")
    ensures KpiLines(ms).Err? ==> KpiLines(ms).error == StringIndexedByKey(Ellipsis)
  {
    var cells := KpiCells(ms);
    if |ms| > MeasureCap {
      assert cells[MeasureCap].Marker?;
    } else {
      assert RenderCells(cells).value == KpiTexts(ms);
    }
  }

  /** The bullet of every page, in order. */
  function PageBullets(ps: seq<Page>): (r: seq<string>)
    ensures |r| == |ps| && forall i :: 0 <= i < |ps| ==> r[i] == PageLine(ps[i])
  {
    seq(|ps|, i requires 0 <= i < |ps| => PageLine(ps[i]))
  }

  /** `page_lines`: one bullet per page, none left out. */
  function PageLines(ps: seq<Page>): string {
    Join(PageBullets(ps), "\n")
  }

  /** `', '.join(_short(spec['tables'], 20))`. */
  function TableList(tables: seq<string>): string {
    Join(Short(tables, TableCap, Ellipsis), ", ")
  }

  /** The head of a section: `### Title (count)`. */
  function Header(title: string, n: nat): (r: string)
    ensures |r| >= 1 && r[0] == '#' && r[|r| - 1] == ')'
  {
    "### " + title + " (" + NatToString(n) + ")"
  }

  /** A section: its head, its body on the next line, and the text that separates it from what follows. */
  function Section(title: string, n: nat, body: string, tail: string): string {
    Header(title, n) + Body(body, tail)
  }

  /** The body of a section on the line after its head. */
  function Body(body: string, tail: string): string {
    "\n" + body + tail
  }

  /** The opening sentence, which carries the date. */
  function Greeting(today: string): (r: string)
    ensures |r| >= 1 && r[0] == 'N' && r[|r| - 1] == '.'
  {
    "Nous sommes le " + today + ". Tu es un consultant BI de Klint."
  }

  /** The instructions in front of the sections, from the opening newline of the template. */
  function Intro(today: string): string {
    "\n" + Greeting(today) + Instructions
  }

  /** The request itself, between the greeting and the sections. */
  const Instructions: string :=
    "\nÀ partir des métadonnées ci-dessous, rédige une spécification fonctionnelle\n"
    + "en cinq sections (Introduction & objectifs, Sources de données, Indicateurs,\n"
    + "Description des pages, Glossaire).\n\n"

  /** The f-string before `.strip()`, from the date, the three counts and the three rendered lists. */
  function Template(intro: string, nt: nat, tables: string, nm: nat, kpi: string, np: nat, pages: string): string {
    Assemble(intro,
             Section("Tables", nt, tables, "\n\n"),
             Section("Mesures", nm, kpi, "\n\n"),
             Section("Pages", np, pages, "\n"))
  }

  /** The instructions followed by the three sections. */
  function Assemble(intro: string, tables: string, measures: string, pages: string): string {
    intro + tables + measures + pages
  }

  /** The template filled in from a report and its measure bullets. */
  function RawPrompt(spec: ReportRecord, today: string, kpi: string): string {
    Template(Intro(today), |spec.tables|, TableList(spec.tables), |spec.measures|, kpi, |spec.pages|, PageLines(spec.pages))
  }

  /** `prompt` in `generate_narrative(spec)`; the measure bullets are evaluated first. */
  function Prompt(spec: ReportRecord, today: string): Result<string, NarrativeError> {
    match KpiLines(spec.measures)
    case Err(e) => Err(e)
    case Ok(kpi) => Ok(Strip(RawPrompt(spec, today, kpi)))
  }

  /** A prompt is built exactly when the report has at most fifteen measures. */
  lemma PromptBuiltIffFewMeasures(spec: ReportRecord, today: string)
    ensures Prompt(spec, today).Ok? <==> |spec.measures| <= MeasureCap
    ensures Prompt(spec, today).Err? ==> Prompt(spec, today).error == StringIndexedByKey(Ellipsis)
  {
    KpiLinesSpec(spec.measures);
  }

  // ------------------------------------------------------------ layout of the template

  lemma InFirst(a: string, b: string, c: string, d: string, h: string, i: int)
    requires OccursAt(a, h, i)
    ensures OccursAt(Assemble(a, b, c, d), h, i)
  {
    OccursExtend(a, b, h, i);
    OccursExtend(a + b, c, h, i);
    OccursExtend(a + b + c, d, h, i);
  }

  lemma InSecond(a: string, b: string, c: string, d: string, h: string, i: int)
    requires OccursAt(b, h, i)
    ensures OccursAt(Assemble(a, b, c, d), h, |a| + i)
  {
    OccursShift(a, b, h, i);
    OccursExtend(a + b, c, h, |a| + i);
    OccursExtend(a + b + c, d, h, |a| + i);
  }

  lemma InThird(a: string, b: string, c: string, d: string, h: string, i: int)
    requires OccursAt(c, h, i)
    ensures OccursAt(Assemble(a, b, c, d), h, |a| + |b| + i)
  {
    OccursShift(a + b, c, h, i);
    OccursExtend(a + b + c, d, h, |a + b| + i);
  }

  lemma InFourth(a: string, b: string, c: string, d: string, h: string, i: int)
    requires OccursAt(d, h, i)
    ensures OccursAt(Assemble(a, b, c, d), h, |a| + |b| + |c| + i)
  {
    OccursShift(a + b + c, d, h, i);
  }

  /** The head and the body of a section, and its length. */
  lemma SectionLayout(title: string, n: nat, body: string, tail: string)
    ensures OccursAt(Section(title, n, body, tail), Header(title, n), 0)
    ensures OccursAt(Section(title, n, body, tail), body, |Header(title, n)| + 1)
    ensures |Section(title, n, body, tail)| == |Header(title, n)| + 1 + |body| + |tail|
  {
    var h := Header(title, n);
    assert h[0..|h|] == h;
    OccursExtend(h, Body(body, tail), h, 0);
    OccursBetween("\n", body, tail);
    OccursShift(h, Body(body, tail), body, 1);
  }

  /** The greeting follows the opening newline. */
  lemma IntroLayout(today: string)
    ensures OccursAt(Intro(today), Greeting(today), 1)
  {
    OccursBetween("\n", Greeting(today), Instructions);
  }

  /** The greeting stands right after the opening newline of the template. */
  lemma GreetingAt(today: string, nt: nat, tl: string, nm: nat, kpi: string, np: nat, pl: string)
    ensures OccursAt(Template(Intro(today), nt, tl, nm, kpi, np, pl), Greeting(today), 1)
  {
    IntroLayout(today);
    InFirst(Intro(today), Section("Tables", nt, tl, "\n\n"), Section("Mesures", nm, kpi, "\n\n"),
            Section("Pages", np, pl, "\n"), Greeting(today), 1);
  }

  /** The template starts with its instructions. */
  lemma IntroAt(intro: string, nt: nat, tl: string, nm: nat, kpi: string, np: nat, pl: string)
    ensures OccursAt(Template(intro, nt, tl, nm, kpi, np, pl), intro, 0)
  {
    assert intro[0..|intro|] == intro;
    InFirst(intro, Section("Tables", nt, tl, "\n\n"), Section("Mesures", nm, kpi, "\n\n"),
            Section("Pages", np, pl, "\n"), intro, 0);
  }

  /** The tables section follows the instructions. */
  lemma TablesAt(intro: string, nt: nat, tl: string, nm: nat, kpi: string, np: nat, pl: string)
    ensures OccursAt(Template(intro, nt, tl, nm, kpi, np, pl), Header("Tables", nt), |intro|)
    ensures OccursAt(Template(intro, nt, tl, nm, kpi, np, pl), tl, |intro| + |Header("Tables", nt)| + 1)
  {
    var st := Section("Tables", nt, tl, "\n\n");
    var sm := Section("Mesures", nm, kpi, "\n\n");
    var sp := Section("Pages", np, pl, "\n");
    SectionLayout("Tables", nt, tl, "\n\n");
    InSecond(intro, st, sm, sp, Header("Tables", nt), 0);
    InSecond(intro, st, sm, sp, tl, |Header("Tables", nt)| + 1);
  }

  /** The measures section follows the table list and the blank line after it. */
  lemma MeasuresAt(intro: string, nt: nat, tl: string, nm: nat, kpi: string, np: nat, pl: string) returns (at: int)
    ensures at == |intro| + |Header("Tables", nt)| + 1 + |tl| + 2
    ensures OccursAt(Template(intro, nt, tl, nm, kpi, np, pl), Header("Mesures", nm), at)
    ensures OccursAt(Template(intro, nt, tl, nm, kpi, np, pl), kpi, at + |Header("Mesures", nm)| + 1)
  {
    var st := Section("Tables", nt, tl, "\n\n");
    var sm := Section("Mesures", nm, kpi, "\n\n");
    var sp := Section("Pages", np, pl, "\n");
    SectionLayout("Tables", nt, tl, "\n\n");
    SectionLayout("Mesures", nm, kpi, "\n\n");
    at := |intro| + |st|;
    InThird(intro, st, sm, sp, Header("Mesures", nm), 0);
    InThird(intro, st, sm, sp, kpi, |Header("Mesures", nm)| + 1);
  }

  /** The pages section closes the template. */
  lemma PagesAt(intro: string, nt: nat, tl: string, nm: nat, kpi: string, np: nat, pl: string) returns (at: int)
    ensures OccursAt(Template(intro, nt, tl, nm, kpi, np, pl), Header("Pages", np), at)
    ensures OccursAt(Template(intro, nt, tl, nm, kpi, np, pl), pl, at + |Header("Pages", np)| + 1)
  {
    var st := Section("Tables", nt, tl, "\n\n");
    var sm := Section("Mesures", nm, kpi, "\n\n");
    var sp := Section("Pages", np, pl, "\n");
    SectionLayout("Pages", np, pl, "\n");
    at := |intro| + |st| + |sm|;
    InFourth(intro, st, sm, sp, Header("Pages", np), 0);
    InFourth(intro, st, sm, sp, pl, |Header("Pages", np)| + 1);
  }

  // ------------------------------------------------------------ what survives `strip()`

  /** The three section heads survive `strip()`. */
  lemma HeadsSurvive(intro: string, nt: nat, tl: string, nm: nat, kpi: string, np: nat, pl: string)
    ensures var p := Strip(Template(intro, nt, tl, nm, kpi, np, pl));
            && Contains(p, Header("Tables", nt))
            && Contains(p, Header("Mesures", nm))
            && Contains(p, Header("Pages", np))
  {
    var t := Template(intro, nt, tl, nm, kpi, np, pl);
    TablesAt(intro, nt, tl, nm, kpi, np, pl);
    var m := MeasuresAt(intro, nt, tl, nm, kpi, np, pl);
    var p := PagesAt(intro, nt, tl, nm, kpi, np, pl);
    StripKeepsBlockAt(t, Header("Tables", nt), |intro|);
    StripKeepsBlockAt(t, Header("Mesures", nm), m);
    StripKeepsBlockAt(t, Header("Pages", np), p);
  }

  /** Any text inside the table list survives: the instructions stand before it and the measures head after it. */
  lemma TableTextSurvives(intro: string, nt: nat, tl: string, nm: nat, kpi: string, np: nat, pl: string, h: string, i: int)
    requires |intro| >= 2 && !IsSpace(intro[1])
    requires OccursAt(tl, h, i)
    ensures Contains(Strip(Template(intro, nt, tl, nm, kpi, np, pl)), h)
  {
    var t := Template(intro, nt, tl, nm, kpi, np, pl);
    var hm := Header("Mesures", nm);
    IntroAt(intro, nt, tl, nm, kpi, np, pl);
    TablesAt(intro, nt, tl, nm, kpi, np, pl);
    var m := MeasuresAt(intro, nt, tl, nm, kpi, np, pl);
    var at := |intro| + |Header("Tables", nt)| + 1;
    OccursWithin(t, tl, at, h, i);
    assert t[1] == intro[1];
    assert t[m] == hm[0];
    StripKeepsFlanked(t, h, at + i, 1, m);
  }

  /** A bullet inside the measure list survives. */
  lemma KpiLineSurvives(intro: string, nt: nat, tl: string, nm: nat, kpi: string, np: nat, pl: string, line: string, i: int)
    requires OccursAt(kpi, line, i)
    requires |line| >= 1 && !IsSpace(line[0]) && !IsSpace(line[|line| - 1])
    ensures Contains(Strip(Template(intro, nt, tl, nm, kpi, np, pl)), line)
  {
    var t := Template(intro, nt, tl, nm, kpi, np, pl);
    var m := MeasuresAt(intro, nt, tl, nm, kpi, np, pl);
    var at := m + |Header("Mesures", nm)| + 1;
    OccursWithin(t, kpi, at, line, i);
    StripKeepsBlockAt(t, line, at + i);
  }

  /** A bullet inside the page list survives. */
  lemma PageLineSurvives(intro: string, nt: nat, tl: string, nm: nat, kpi: string, np: nat, pl: string, line: string, i: int)
    requires OccursAt(pl, line, i)
    requires |line| >= 1 && !IsSpace(line[0]) && !IsSpace(line[|line| - 1])
    ensures Contains(Strip(Template(intro, nt, tl, nm, kpi, np, pl)), line)
  {
    var t := Template(intro, nt, tl, nm, kpi, np, pl);
    var p := PagesAt(intro, nt, tl, nm, kpi, np, pl);
    var at := p + |Header("Pages", np)| + 1;
    OccursWithin(t, pl, at, line, i);
    StripKeepsBlockAt(t, line, at + i);
  }

  // ------------------------------------------------------------ the prompt of a report

  /** The opening sentence, with the date, and the three section heads with the full counts, even where a list is cut short. */
  lemma PromptHeads(spec: ReportRecord, today: string)
    requires Prompt(spec, today).Ok?
    ensures Contains(Prompt(spec, today).value, Greeting(today))
    ensures Contains(Prompt(spec, today).value, Header("Tables", |spec.tables|))
    ensures Contains(Prompt(spec, today).value, Header("Mesures", |spec.measures|))
    ensures Contains(Prompt(spec, today).value, Header("Pages", |spec.pages|))
  {
    var kpi := KpiLines(spec.measures).value;
    var t := RawPrompt(spec, today, kpi);
    GreetingAt(today, |spec.tables|, TableList(spec.tables), |spec.measures|, kpi, |spec.pages|, PageLines(spec.pages));
    StripKeepsBlockAt(t, Greeting(today), 1);
    HeadsSurvive(Intro(today), |spec.tables|, TableList(spec.tables), |spec.measures|, KpiLines(spec.measures).value,
                 |spec.pages|, PageLines(spec.pages));
  }

  /** Every page is listed with its bullet: the page list is never cut short. */
  lemma PromptListsEveryPage(spec: ReportRecord, today: string, k: nat)
    requires Prompt(spec, today).Ok?
    requires k < |spec.pages|
    ensures Contains(Prompt(spec, today).value, PageLine(spec.pages[k]))
  {
    var pre, post := JoinAround(PageBullets(spec.pages), "\n", k);
    var line := PageLine(spec.pages[k]);
    OccursBetween(pre, line, post);
    PageLineSurvives(Intro(today), |spec.tables|, TableList(spec.tables), |spec.measures|, KpiLines(spec.measures).value,
                     |spec.pages|, PageLines(spec.pages), line, |pre|);
  }

  /** Every measure is listed with its bullet (a prompt exists only for at most fifteen of them). */
  lemma PromptListsEveryMeasure(spec: ReportRecord, today: string, k: nat)
    requires Prompt(spec, today).Ok?
    requires k < |spec.measures|
    ensures Contains(Prompt(spec, today).value, KpiText(spec.measures[k]))
  {
    KpiLinesSpec(spec.measures);
    var pre, post := JoinAround(KpiTexts(spec.measures), "\n", k);
    var line := KpiText(spec.measures[k]);
    OccursBetween(pre, line, post);
    KpiLineSurvives(Intro(today), |spec.tables|, TableList(spec.tables), |spec.measures|, KpiLines(spec.measures).value,
                    |spec.pages|, PageLines(spec.pages), line, |pre|);
  }

  /** The first twenty table names are listed. */
  lemma PromptListsTables(spec: ReportRecord, today: string, k: nat)
    requires Prompt(spec, today).Ok?
    requires k < |spec.tables| && k < TableCap
    ensures Contains(Prompt(spec, today).value, spec.tables[k])
  {
    IntroLayout(today);
    var shortList := Short(spec.tables, TableCap, Ellipsis);
    assert shortList[k] == spec.tables[k];
    var pre, post := JoinAround(shortList, ", ", k);
    OccursBetween(pre, spec.tables[k], post);
    TableTextSurvives(Intro(today), |spec.tables|, TableList(spec.tables), |spec.measures|, KpiLines(spec.measures).value,
                      |spec.pages|, PageLines(spec.pages), spec.tables[k], |pre|);
  }

  /** When there are more than twenty tables, the marker closes the list. */
  lemma PromptMarksTruncatedTables(spec: ReportRecord, today: string)
    requires Prompt(spec, today).Ok?
    requires |spec.tables| > TableCap
    ensures Contains(Prompt(spec, today).value, Ellipsis)
  {
    IntroLayout(today);
    var shortList := Short(spec.tables, TableCap, Ellipsis);
    var pre, post := JoinAround(shortList, ", ", TableCap);
    OccursBetween(pre, Ellipsis, post);
    TableTextSurvives(Intro(today), |spec.tables|, TableList(spec.tables), |spec.measures|, KpiLines(spec.measures).value,
                      |spec.pages|, PageLines(spec.pages), Ellipsis, |pre|);
  }
}
