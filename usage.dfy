/**
 * The usage report the app fetches and the widgets display (`UsageResponse` and `UsageBucket`
 * in Shared/UsageModels.swift), reduced to what the views read.
 */
module Usage {
  import opened Base

  /**
   * One quota window: its utilisation in percent and, when the reset date parses, the
   * moment of the reset in seconds on the same clock as the views' `now`.
   */
  datatype UsageBucket = UsageBucket(utilization: real, resetsAt: Option<real>)

  datatype UsageResponse = UsageResponse(
    fiveHour: Option<UsageBucket>,
    sevenDay: Option<UsageBucket>,
    sevenDaySonnet: Option<UsageBucket>)

  /** `bucket?.utilization ?? 0`. */
  function Utilization(bucket: Option<UsageBucket>): real {
    if bucket.Some? then bucket.value.utilization else 0.0
  }

  /** `bucket?.resetsAtDate`. */
  function ResetsAt(bucket: Option<UsageBucket>): Option<real> {
    if bucket.Some? then bucket.value.resetsAt else None
  }
}
