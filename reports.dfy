/** The report records: one line of the operations listing and one line of the month summary. */
module Reports {
  import opened Wrappers
  import opened UInt64
  import opened Calendar

  /** `reports.Operation`: an absent service name or comment is the empty string. */
  datatype Operation = Operation(kind: string, favor: string, sum: uint64, comment: string, time: Option<Instant>)

  /** `reports.SummaryCSV`: a service name and its settled total. */
  datatype SummaryRow = SummaryRow(name: string, value: uint64)
}
