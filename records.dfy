/**
 * The values the Signal & Alert engine consumes and persists. A text field
 * holding "" stands for a field that is missing, null, undefined or empty:
 * every test the engine makes on such a field is a JavaScript truthiness test.
 */
module Records {
  import opened Common

  /** What `new Date(date_reported || now)` yields: no date (so `now`), a time in milliseconds, or an invalid date. */
  datatype DateField = Missing | At(ms: int) | Unparsable

  /** One adverse-event report as the backend returns it. */
  datatype EventRecord = EventRecord(
    drug_name: string,
    adverse_event: string,
    signal_score: Option<real>,
    date_reported: string,   // the raw text, used by the month buckets of the charts
    reported: DateField      // the parse of that text, used by spike detection; given independently, since no member reads both
  )

  /** A drug/event pair as computeNewPairs reports it: the raw names of the record. */
  datatype PairName = PairName(drug_name: string, adverse_event: string)

  /** One entry of the persisted new-signal ledger. */
  datatype LedgerEntry = LedgerEntry(drug_name: string, adverse_event: string, isNewFromUpload: bool)

  /**
   * The persisted alert settings. A numeric field holding 0 stands for every value
   * JavaScript's `||` treats as false (0, NaN, missing); "" in min_severity likewise.
   */
  datatype Settings = Settings(
    spike_window_days: real,
    spike_percent: real,
    risk_threshold: real,
    min_cases: real,
    min_severity: string
  )
}
