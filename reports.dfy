/**
 * The normalised output of a dev-digest module (common/report.go): a Report holds
 * Sections, a Section holds an optional Table and free-form lines.
 */
module Reports {
  import opened Basics

  datatype Table = Table(headers: seq<string>, rows: seq<seq<string>>)

  /** `table` is None when the Go *Table is nil. */
  datatype Section = Section(header: string, table: Option<Table>, lines: seq<string>)

  /**
   * `meta` is None when the Go map is nil. Go's values are `any`; the only value the
   * modelled code ever stores is the duration string, so values are strings here.
   */
  datatype Report = Report(
    title: string,
    summary: string,
    sections: seq<Section>,
    warnings: seq<string>,
    errors: seq<string>,
    meta: Option<map<string, string>>)

  /** A report with only a title and a summary, as the modules return when they skip their API calls. */
  function Brief(title: string, summary: string): Report {
    Report(title, summary, [], [], [], None)
  }

  /** A report with one table section and nothing else. */
  function WithTable(title: string, summary: string, header: string, table: Table): Report {
    Report(title, summary, [Section(header, Some(table), [])], [], [], None)
  }
}
