/**
 * `TestResult`, the outcome every hypothesis test returns: the test
 * statistic and its p-value, each a float64 that may be NaN or infinite.
 * Go's struct also carries an `Err` field, which none of the tests sets.
 */
module TestResults {
  import opened Outcomes

  datatype TestResult = TestResult(statistic: Value, pValue: Value)
}
