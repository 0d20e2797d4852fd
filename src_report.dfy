/** src/networkguardian/report.py: the report of the prototype executor, a list of results in the
    order they were added. */
module SrcReport {
  import opened Exceptions
  import opened SrcPlugin

  /** A `Result`: the plugin, what it returned, and its template, stored as given. */
  datatype ReportResult = ReportResult(plugin: BasePlugin, result: Data, template: string)

  class Report {
    const systemName: string
    const date: string
    const softwareVersion: string
    var results: seq<ReportResult>

    /** `Report(system_name, date, software_version)`: no results yet. */
    constructor(systemName: string, date: string, softwareVersion: string)
      ensures this.systemName == systemName && this.date == date && this.softwareVersion == softwareVersion
      ensures results == []
    {
      this.systemName := systemName;
      this.date := date;
      this.softwareVersion := softwareVersion;
      results := [];
    }

    /** `add_result(result)`: exactly one result, at the end; the earlier ones stay as they were. */
    method AddResult(result: ReportResult)
      modifies this
      ensures results == old(results) + [result]
    {
      results := results + [result];
    }
  }
}
