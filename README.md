# Auto-Spec core, modelled in Dafny

Auto-Spec takes a Power BI report (`.pbix`), runs pbi-tools on it, and turns the
output into a *report record*. The record holds tables, measures, pages and their
visuals, relations and an optional note. The record is then used in two ways:

* to answer a question about the report: `build_context` picks the parts of the
  record that the question mentions;
* to ask a language model for a functional specification: `generate_narrative`
  builds a prompt from the record.

Both go through `azure_llm_chat`. That call resolves the Azure OpenAI endpoint,
deployment and API version from the environment.

The model covers the deterministic parts of that pipeline. It has one module per
source file, plus three shared modules:

| module | file | what it holds |
|---|---|---|
| `Wrappers` | `wrappers.dfy` | `Option` and `Result` |
| `Text` | `text.dfy` | The Python string operations used: `strip`, `rstrip("/")`, `join`, literal and ASCII case-insensitive substring search, and `str()` of a non-negative int. |
| `Report` | `report.dfy` | The report record: measures, pages, visuals, relations and the optional note. |
| `ContextMatcher` | `context_matcher.dfy` | `build_context` from `backend/app/chat.py` (see below). |
| `ExtractPbix` | `extract_pbix.dfy` | `backend/app/extract_pbix.py` (see below). |
| `Narrative` | `narrative.dfy` | The prompt of `backend/app/generate_narrative.py` (see below). |
| `AzureLlm` | `azure_llm.dfy` | The settings, URL, request and metadata of `commom/azure_llm.py`. |

**`ContextMatcher`.** `build_context` is an imperative method with one loop per source loop. It is proved equal to a specification function, `ContextOf`. The lemmas state these properties of `ContextOf`:

* which lines appear, as if-and-only-if conditions;
* the order of the three passes;
* the bound on the number of lines;
* when the sentinel is returned.

**`ExtractPbix`.** The modelled operations are `_pbi_tools_path`, `_find_model_file` (early-return loops), `_extract_pages` (an append loop) and `extract_spec`. In `extract_spec`, the working directory is a small object that is created and then always removed.

**`Narrative`.** The model covers `_short`, the measure and page bullets, the table list and the prompt after `strip()`. Above fifteen measures, the `"…"` marker is subscripted with `'name'` and the code raises. The model keeps this behaviour as an error outcome.

## Model

| member | source | states |
|---|---|---|
| ContextMatcher.BuildContext | backend/app/chat.py:11-27 | The five loops and the final join return exactly `ContextOf(q, spec)`, the specification the lemmas below are about. |
| ContextMatcher.AppendMeasureLines | backend/app/chat.py:14-16 | The measure loop appends, in measure order, one rendered line per measure whose name occurs in the question, and leaves the earlier lines unchanged. |
| ContextMatcher.AppendTableLines | backend/app/chat.py:18-20 | The table loop appends one rendered line per table whose name occurs in the question, in table order. |
| ContextMatcher.AppendFieldLines | backend/app/chat.py:22-26 | The page loop appends the field lines of every page, page after page. |
| ContextMatcher.AppendVisualLines | backend/app/chat.py:23-26 | The visual loop appends the field lines of every visual of one page, visual after visual. |
| ContextMatcher.AppendFieldHits | backend/app/chat.py:24-26 | The field loop appends one line, naming the page, per field that contains the question. |
| ContextMatcher.MeasureLines | backend/app/chat.py:14-16 | The measure pass yields at most one line per measure, and only measure lines. |
| ContextMatcher.TableLines | backend/app/chat.py:18-20 | The table pass yields at most one line per table, and only table lines. |
| ContextMatcher.FieldHits | backend/app/chat.py:24-26 | At most one field line per field of a visual. |
| ContextMatcher.VisualHits | backend/app/chat.py:23-26 | At most one field line per field of the visuals of a page. |
| ContextMatcher.FieldLines | backend/app/chat.py:22-26 | The field pass yields only field lines. |
| ContextMatcher.FieldLinesBound | backend/app/chat.py:22-26 | The field pass yields at most as many lines as there are fields on all pages. |
| ContextMatcher.ContextLines | backend/app/chat.py:11-26 | At most `|measures| + |tables| + total field count` lines are appended. |
| ContextMatcher.Finish | backend/app/chat.py:27 | Joins the lines with "\n" and falls back to the sentinel on an empty join; its properties are stated by `NoContextIffNoLines` and `EmittedLineInContext`. |
| ContextMatcher.ContextOf | backend/app/chat.py:11-27 | The text `build_context` returns, as a function of the question and the record; `BuildContext` is proved to compute it, and the lemmas of this module state its properties. |
| ContextMatcher.NoContextIffNoLines | backend/app/chat.py:27 | The sentinel "Pas de contexte direct trouvé." is returned exactly when no pass appended a line; otherwise the result is the lines joined with "\n". |
| ContextMatcher.MeasureLinesMembership | backend/app/chat.py:14-16 | A line is in the measure pass iff it is `Mesure name = expr` for a listed measure whose name occurs case-insensitively in the question. |
| ContextMatcher.TableLinesMembership | backend/app/chat.py:18-20 | A line is in the table pass iff it names a listed table occurring case-insensitively in the question. |
| ContextMatcher.FieldHitsMembership | backend/app/chat.py:24-26 | A line is among one visual's hits iff it names a field of that visual that contains the question. |
| ContextMatcher.VisualHitsMembership | backend/app/chat.py:23-26 | A line is among a page's hits iff it names a field of one of its visuals that contains the question. |
| ContextMatcher.FieldLinesMembership | backend/app/chat.py:22-26 | A line is in the field pass iff it names a field of a visual of a page that contains the question, together with that page's name. |
| ContextMatcher.MeasureLineIff | backend/app/chat.py:14-16 | `Mesure {name} = {expr}` is emitted iff a measure with that name and expression exists and its name occurs case-insensitively in the question. |
| ContextMatcher.TableLineIff | backend/app/chat.py:18-20 | `Table présente : {t}` is emitted iff `t` is a table that occurs case-insensitively in the question. |
| ContextMatcher.FieldLineIff | backend/app/chat.py:22-26 | A field line is emitted iff the question occurs case-insensitively inside that field of some visual of the named page; the search runs in the opposite direction to the other two passes. |
| ContextMatcher.EmptyNameMatchesEveryQuestion | backend/app/chat.py:15 | A measure with an empty name is reported whatever the question. |
| ContextMatcher.EmptyTableMatchesEveryQuestion | backend/app/chat.py:19 | A table with an empty name is reported whatever the question. |
| ContextMatcher.EmptyQuestionMatchesEveryField | backend/app/chat.py:22-26 | An empty question yields exactly one line per field of every visual of every page. |
| ContextMatcher.EmptyQuestionVisualHits | backend/app/chat.py:23-26 | An empty question yields one line per field of every visual of a page. |
| ContextMatcher.EmptyQuestionFieldHits | backend/app/chat.py:24-26 | An empty question yields one line per field of a visual. |
| ContextMatcher.PassesInOrder | backend/app/chat.py:13-26 | Every measure line precedes every table line, which precedes every field line. |
| ContextMatcher.MeasureLinesConcat | backend/app/chat.py:14-16 | Within the measure pass, earlier measures' lines come before later ones. |
| ContextMatcher.TableLinesConcat | backend/app/chat.py:18-20 | Within the table pass, earlier tables' lines come first. |
| ContextMatcher.FieldLinesConcat | backend/app/chat.py:22-26 | Within the field pass, earlier pages' lines come first. |
| ContextMatcher.FieldLinesStep | backend/app/chat.py:22-26 | The lines of one more page follow those of the pages before it, in visual and field order. |
| ContextMatcher.EmittedLineInContext | backend/app/chat.py:27 | Every emitted line stands whole in the returned text. |
| ContextMatcher.FirstMeasureLeads | backend/app/chat.py:14-16 | When the first measure is named in the question, its line opens the context. |
| ContextMatcher.RevenueExample | backend/app/chat.py:14-16 | "How is Revenue computed?" against a report with the measure Revenue = SUM(Sales[Amount]) yields a context containing "Mesure Revenue = SUM(Sales[Amount])". |
| ExtractPbix.ToolPath | backend/app/extract_pbix.py:21-25 | The executable is `PBITOOLS_PATH`, or the built-in default path when that variable is unset; it is returned iff it is a regular file, otherwise `PBIToolsMissing` names it. |
| ExtractPbix.GlobFirst | backend/app/extract_pbix.py:40-43 | A glob result is empty iff no entry matches, and otherwise starts with the first matching entry. |
| ExtractPbix.FirstFileOfGlob | backend/app/extract_pbix.py:36-38 | The loop over `DataModelSchema*` finds the first matching entry that is a regular file, and finds nothing iff there is none. |
| ExtractPbix.ModelFileOrder | backend/app/extract_pbix.py:29-44 | Names are compared without regard to letter case. `Model/database.json` wins when it is a file; otherwise the first `DataModelSchema*` file of `Model/`; otherwise the first `*.tmdl` anywhere; only then the first `*.bim`; otherwise nothing, and nothing exactly when none of those exist. |
| ExtractPbix.FirstFileIn | backend/app/extract_pbix.py:36-38 | The early-return loop returns the first regular file among the glob results. |
| ExtractPbix.ModelFile | backend/app/extract_pbix.py:29-44 | The path `_find_model_file` returns, first match wins; its selection order is stated by `ModelFileOrder`. |
| ExtractPbix.FindModelFile | backend/app/extract_pbix.py:29-44 | The early-return code returns exactly the path that `ModelFileOrder` characterises. |
| ExtractPbix.VisualDefaults | backend/app/extract_pbix.py:54-60 | A visual's type is `visualType` (None when absent), and its fields are `config.dataRoles`, or `[]` when `config` or `dataRoles` is absent. |
| ExtractPbix.PageDefaults | backend/app/extract_pbix.py:51-61 | A page is named by `name`, or by the file stem when `name` is absent, and has one visual per visual container, in order (none when the key is absent). |
| ExtractPbix.VisualOf | backend/app/extract_pbix.py:55-58 | The per-visual dictionary; its defaults are stated by `VisualDefaults`. |
| ExtractPbix.PageOf | backend/app/extract_pbix.py:51-61 | The page of one layout file; its defaults are stated by `PageDefaults`. |
| ExtractPbix.PagesOf | backend/app/extract_pbix.py:47-63 | One page per layout file, in enumeration order, as long as every file decodes; otherwise the error names the first file that did not decode. |
| ExtractPbix.ExtractPages | backend/app/extract_pbix.py:47-63 | The append loop yields exactly `PagesOf`. |
| ExtractPbix.TableNames | backend/app/extract_pbix.py:101 | `tables` lists every table's name, in model order, and fails with a missing `name` key iff some table has none. |
| ExtractPbix.EntryFault | backend/app/extract_pbix.py:103 | The key missing from one measure entry, if any, in the order the dictionary reads them: the table's `name`, the entry's `name`, then its `expression`. |
| ExtractPbix.TableMeasures | backend/app/extract_pbix.py:102-106 | The measures of one table; stated by `TableMeasuresSpec`. |
| ExtractPbix.MeasuresOf | backend/app/extract_pbix.py:102-106 | The measures of all tables, flattened; stated by `MeasuresOfFails`, `MeasuresOfLayout`, `MeasuresOfEntries` and `MeasuresOfSpec`. |
| ExtractPbix.TableMeasuresSpec | backend/app/extract_pbix.py:102-106 | One table's measures fail iff some entry lacks a key, and then with the first such entry's missing key. Otherwise record `k` carries the table's name and the `name` and `expression` of entry `k`. |
| ExtractPbix.MeasuresBefore | backend/app/extract_pbix.py:102-106 | Table `i`'s measures start at this position and end within the total measure count. |
| ExtractPbix.MeasuresOfFails | backend/app/extract_pbix.py:102-106 | The flattening fails iff some table's measures fail, and then with the first failing table's fault. |
| ExtractPbix.MeasuresOfLayout | backend/app/extract_pbix.py:102-106 | Table `i`'s measures stand, in entry order, as one block right after those of the tables before it. |
| ExtractPbix.MeasuresOfEntries | backend/app/extract_pbix.py:102-106 | Entry `k` of table `i` becomes the measure at position `MeasuresBefore(ts, i) + k`, carrying the table's name and the entry's `name` and `expression`. |
| ExtractPbix.AssembleReport | backend/app/extract_pbix.py:98-115 | The full-model branch: decode failures, then a missing `model` or `tables` key, then the table and measure faults, else the record. `AssembleReportOutcome` states when it succeeds and which fault it reports; `AssembledReport` states the record. |
| ExtractPbix.AssembleReportOutcome | backend/app/extract_pbix.py:98-107 | The branch succeeds iff the file decodes, has `model` and `model.tables`, every table has a `name`, and every measure entry has `name` and `expression`. Otherwise it fails with the first fault met, in this order: undecodable file, missing `model`, missing `tables`, missing table `name`, then the first measure fault. |
| ExtractPbix.MeasuresOfSpec | backend/app/extract_pbix.py:102-106 | The measure count is the sum of the per-table counts, a table without `measures` counting zero, and every measure is tagged with the name of a table it came from. |
| ExtractPbix.NamedEntries | backend/app/extract_pbix.py:101-106 | Once the table names and measures are read, entry `k` of table `i` is the measure at position `MeasuresBefore(ts, i) + k`, with `tables[i]` as its table. |
| ExtractPbix.AssembledReport | backend/app/extract_pbix.py:98-115 | A full-model record has the table names in order. Its measures come table by table and entry by entry, each with its table's name and its entry's `name` and `expression`; all name one of the tables, with the summed count. It has `relationships` passed through or `[]`, the layout pages, and no note. |
| ExtractPbix.ThinReportWhenNoModel | backend/app/extract_pbix.py:86-96 | Without a model file the record has empty tables, measures and relations, the extracted pages, and the thin-report note. |
| ExtractPbix.NoteMarksThinReport | backend/app/extract_pbix.py:84-115 | A record carries a note exactly when no model file was found, and its pages are the extracted pages either way. |
| ExtractPbix.MeasuresNameTheirTables | backend/app/extract_pbix.py:101-106 | Every measure of an extracted record names one of its tables. |
| ExtractPbix.ExtractFailures | backend/app/extract_pbix.py:67-84 | A missing executable fails first with `PBIToolsMissing`. A non-zero exit code then fails with the stripped stderr. After a clean run, an undecodable layout file fails with `MalformedLayout`, naming the first such file. |
| ExtractPbix.ExtractWithModel | backend/app/extract_pbix.py:84-115 | After a clean run with decodable layouts and a model file found, the outcome is the full-model branch on that file's contents, with the extracted pages. |
| ExtractPbix.ExtractionDependsOnIdOnlyInId | backend/app/extract_pbix.py:89-110 | Two extractions that differ only in the fresh id either both fail the same way, or give records that differ only in `id`. |
| ExtractPbix.Extract | backend/app/extract_pbix.py:67-115 | The outcome of `extract_spec` from everything it observes; stated by `ExtractFailures`, `ThinReportWhenNoModel`, `ExtractWithModel` (with `AssembleReportOutcome`), `NoteMarksThinReport`, `MeasuresNameTheirTables` and `ExtractionDependsOnIdOnlyInId`, and computed by `ExtractSpec`. |
| ExtractPbix.WorkDir.Make | backend/app/extract_pbix.py:69 | `mkdtemp` creates the working directory. |
| ExtractPbix.WorkDir.Remove | backend/app/extract_pbix.py:117-118 | `rmtree` removes the working directory. |
| ExtractPbix.ExtractSpec | backend/app/extract_pbix.py:67-118 | The result is `Extract` of the inputs. The working directory is gone on every exit path, and it was created on every path except a missing executable. |
| Narrative.Short | backend/app/generate_narrative.py:11-12 | A list of at most `n` items comes back unchanged; a longer one comes back as its first `n` items followed by the marker, `n + 1` items in all. |
| Narrative.ShortIdempotent | backend/app/generate_narrative.py:12 | Shortening twice equals shortening once, and the result never has more than `n + 1` items. |
| Narrative.KpiText | backend/app/generate_narrative.py:16 | A measure bullet starts with "-" and ends with the closing backquote. |
| Narrative.RenderCells | backend/app/generate_narrative.py:15-17 | The bullets render iff no item is the marker, one bullet per measure in order; otherwise the first marker, every item before it being a measure, raises. |
| Narrative.KpiCells | backend/app/generate_narrative.py:16 | `_short(spec["measures"])` with the default cap of fifteen; stated by `Short` and `KpiLinesSpec`. |
| Narrative.KpiLines | backend/app/generate_narrative.py:15-17 | `kpi_lines`; stated by `KpiLinesSpec`. |
| Narrative.KpiLinesSpec | backend/app/generate_narrative.py:15-17 | `kpi_lines` exists iff there are at most fifteen measures, and is then every measure's bullet joined by newlines; above fifteen, subscripting "…" raises. |
| Narrative.PageLine | backend/app/generate_narrative.py:19 | A page bullet starts with "-" and ends with ")". |
| Narrative.PageBullets | backend/app/generate_narrative.py:18-20 | One bullet per page, in order; pages are never truncated. |
| Narrative.PageLines | backend/app/generate_narrative.py:18-20 | `page_lines`, the page bullets joined by newlines; stated by `PromptListsEveryPage`. |
| Narrative.TableList | backend/app/generate_narrative.py:28 | The first twenty table names joined by ", ", then the marker if there are more; stated by `PromptListsTables` and `PromptMarksTruncatedTables`. |
| Narrative.Header | backend/app/generate_narrative.py:27 | A section head starts with "#" and ends with ")". |
| Narrative.Greeting | backend/app/generate_narrative.py:22 | The opening sentence starts with "N" and ends with ".". |
| Narrative.Template | backend/app/generate_narrative.py:21-34 | The f-string before `strip()`: the instructions, then the three sections; stated by `HeadsSurvive`, `TableTextSurvives`, `KpiLineSurvives` and `PageLineSurvives`. |
| Narrative.RawPrompt | backend/app/generate_narrative.py:21-34 | The template filled in from a record and its measure bullets. |
| Narrative.Prompt | backend/app/generate_narrative.py:15-35 | `prompt`: the measure bullets first, then the stripped template; stated by `PromptBuiltIffFewMeasures`, `PromptHeads` and the `PromptLists…` lemmas. |
| Narrative.PromptBuiltIffFewMeasures | backend/app/generate_narrative.py:15-35 | A prompt is built iff the report has at most fifteen measures; otherwise the error is the subscripted marker. |
| Narrative.HeadsSurvive | backend/app/generate_narrative.py:21-35 | `strip()` keeps the three section heads of the template. |
| Narrative.TableTextSurvives | backend/app/generate_narrative.py:27-30 | `strip()` keeps any text of the table list. |
| Narrative.KpiLineSurvives | backend/app/generate_narrative.py:30-31 | `strip()` keeps every bullet of the measure list. |
| Narrative.PageLineSurvives | backend/app/generate_narrative.py:33-35 | `strip()` keeps every bullet of the page list. |
| Narrative.PromptHeads | backend/app/generate_narrative.py:21-35 | The prompt holds the dated opening sentence and the heads "### Tables (n)", "### Mesures (n)" and "### Pages (n)" with the full, untruncated counts. |
| Narrative.PromptListsEveryPage | backend/app/generate_narrative.py:18-20 | Every page's bullet, with its name and number of visuals, is in the prompt. |
| Narrative.PromptListsEveryMeasure | backend/app/generate_narrative.py:15-17 | Every measure's bullet is in the prompt. |
| Narrative.PromptListsTables | backend/app/generate_narrative.py:28 | Each of the first twenty table names is in the prompt. |
| Narrative.PromptMarksTruncatedTables | backend/app/generate_narrative.py:28 | With more than twenty tables, the prompt carries the "…" marker. |
| AzureLlm.EmptyAfterStripIffSlashes | commom/azure_llm.py:21 | Stripping trailing slashes leaves nothing iff the endpoint consists of slashes only. |
| AzureLlm.ResolveFailsIff | commom/azure_llm.py:20-26 | The call raises before any request iff the key is unset or empty, or the endpoint is unset or consists of slashes only. |
| AzureLlm.DeploymentPrecedence | commom/azure_llm.py:22-23 | The deployment is `AZURE_OPENAI_DEPLOYMENT` when set, else a non-empty `model`, else "gpt-4o". The API version is `AZURE_OPENAI_API_VERSION` or "2025-01-01-preview". The key is the non-empty variable. |
| AzureLlm.Resolve | commom/azure_llm.py:20-33 | The key, the final URL, the deployment and the API version, or the missing-credentials error; stated by `ResolveFailsIff`, `DeploymentPrecedence`, `UrlShape`, `UrlNamesDeployment` and `UrlIsFixedPoint`. |
| AzureLlm.UrlShape | commom/azure_llm.py:21-33 | The endpoint loses its trailing slashes. It is used verbatim when it contains "/deployments/". Otherwise the URL is `endpoint/openai/deployments/{deployment}/chat/completions?api-version={version}`. |
| AzureLlm.UrlNamesDeployment | commom/azure_llm.py:29-33 | The URL posted to always contains "/deployments/". |
| AzureLlm.UrlIsFixedPoint | commom/azure_llm.py:29-33 | Feeding the resolved URL back as the endpoint resolves to the same URL. |
| AzureLlm.Prepare | commom/azure_llm.py:35-38 | The POST that is sent; stated by `RequestCarriesKey`. |
| AzureLlm.RequestCarriesKey | commom/azure_llm.py:35-38 | A request is made iff the settings resolve. It goes to the resolved URL, with the key in the `api-key` header, `max_tokens` 1200 and a 60-second timeout. |
| AzureLlm.Chat | commom/azure_llm.py:42-45 | The pair returned, given the answer text; stated by `MetadataEchoesSettings`. |
| AzureLlm.MetadataEchoesSettings | commom/azure_llm.py:42-45 | The answer comes back with metadata holding exactly the final endpoint and the deployment that were used. |

## Left out

- Case-insensitive matching folds ASCII letters only. `re.I` also folds non-ASCII letters.
- The fields of a visual are modelled by their `str()` rendering. `build_context` only ever sees them through `str(fld)`.
- The `/api/chat` route of `backend/app/chat.py` and all of `backend/app/main.py` are HTTP glue around library calls. They are not part of this model.
- Each of the five loops of `build_context` is a method of its own. `BuildContext` calls the measure, table and page loops. The page loop calls the visual loop, and the visual loop calls the field loop. The list they grow is passed in and returned.
- The pbi-tools subprocess is an input: the exit code and error text of a run.
- `tempfile.mkdtemp` and `shutil.rmtree` become the two flags of `WorkDir`. `rmtree(ignore_errors=True)` is modelled as always succeeding.
- File names are matched as on Windows, which the program targets: `glob`, `rglob` and `is_file` ignore letter case. Case is folded for ASCII letters only, whereas Windows also folds other letters. Environment variable names are compared exactly, although Windows ignores their case; paths in the set of regular files are compared exactly too.
- Globbing is an input. The listings are given in enumeration order, which Python leaves to the file system.
- `json.load` is abstracted. Layout files arrive decoded, or marked undecodable. The model file arrives through a reader from its path to the decoded document. This also covers a `*.tmdl` file, which `json.load` normally rejects. Records are assumed to have the shapes read (a missing key is modelled; a value of the wrong type is not).
- `uuid.uuid4()` is a parameter, `id`.
- ExtractPbix.ExtractSpec: does not model an exception raised from inside `rmtree` or other unforeseen runtime errors; only the failures listed in `ExtractError` are modelled.
- `date.today()` is a parameter, the already formatted date. The model stops at the prompt: the language-model call and `answer.strip()` are not modelled.
- The HTTP POST, `raise_for_status`, and reading `data["choices"][0]["message"]["content"]` from the reply are not modelled. The answer text is a parameter of `AzureLlm.Chat`.
- AzureLlm.RequestCarriesKey: the request body's `messages` is not modelled, only its `max_tokens`, the headers, the URL and the timeout.
- `load_dotenv` is folded into the environment map given to the model.
