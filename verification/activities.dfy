/** The activity records the tracking service returns; read-only to the pipeline. */
module Activities {
  import opened Wrappers
  import opened Calendar

  /**
   * One recorded workout. `distance` is in metres, `movingTime` in whole
   * seconds, `averageSpeed` in metres per second; `startDateLocal` is the
   * ISO-8601 local start time as text.
   *
   * `localMonth` is the year and month `new Date(startDateLocal)` yields in
   * the browser, or `None` when the text is not a date the browser can parse
   * (an Invalid Date). The parse itself is not part of this model.
   */
  datatype RawActivity = RawActivity(
    name: string,
    distance: real,
    movingTime: int,
    averageSpeed: real,
    startDateLocal: string,
    localMonth: Option<YearMonth>
  )
}
