/** What planning and forecasting one trip comes to. Only `Rain` leads to an alert. */
module Verdicts {
  datatype Verdict = Unassessable | Degraded | Dry | Rain
}
