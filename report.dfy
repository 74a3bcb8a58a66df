/**
 * The report record that the extractor builds and that the context matcher and
 * the narrative summarizer read: the dictionary with keys `id`, `tables`,
 * `measures`, `pages`, `relations` and, for a thin report only, `note`.
 */
module Report {
  import opened Wrappers

  /**
   * A field descriptor of a visual (an element of a visual's `dataRoles` list).
   * Only its text rendering `str(fld)` is ever looked at, so that is what is kept.
   */
  type Field = string

  /** A relationship record of the semantic model, passed through uninterpreted. */
  datatype Relation = Relation(raw: string)

  /** `{"table": ..., "name": ..., "expr": ...}` */
  datatype Measure = Measure(table: string, name: string, expr: string)

  /** `{"type": ..., "fields": [...]}`; `type` is `None` when the layout has no `visualType`. */
  datatype Visual = Visual(vtype: Option<string>, fields: seq<Field>)

  /** `{"name": ..., "visuals": [...]}` */
  datatype Page = Page(name: string, visuals: seq<Visual>)

  datatype ReportRecord = ReportRecord(
    id: string,
    tables: seq<string>,
    measures: seq<Measure>,
    pages: seq<Page>,
    relations: seq<Relation>,
    note: Option<string>)
}
