/** `calculate_time_until_threshold`: how many minutes until a forecast
    series, sampled every ten minutes, first falls to a threshold. */
module Threshold {

  /** Minutes between two samples of the forecast. */
  const StepMinutes := 10

  /** Some sample is at or below the threshold. */
  predicate Reaches(values: seq<real>, threshold: real) {
    exists i :: 0 <= i < |values| && values[i] <= threshold
  }

  /** `i` is the first index whose sample is at or below the threshold. */
  predicate FirstReach(values: seq<real>, threshold: real, i: int) {
    0 <= i < |values| && values[i] <= threshold &&
    forall j :: 0 <= j < i ==> values[j] > threshold
  }

  /** The enumerate loop with its early return: minutes to the first sample
      at or below `threshold`, or -1 when no sample reaches it. */
  method TimeUntilThreshold(values: seq<real>, threshold: real) returns (minutes: int)
    ensures minutes == -1 <==> !Reaches(values, threshold)
    ensures minutes != -1 ==> minutes % StepMinutes == 0 && FirstReach(values, threshold, minutes / StepMinutes)
    ensures minutes == -1 || 0 <= minutes < StepMinutes * |values|
  {
    var i := 0;
    while i < |values|
      invariant 0 <= i <= |values|
      invariant forall j :: 0 <= j < i ==> values[j] > threshold
    {
      if values[i] <= threshold {
        return i * StepMinutes;
      }
      i := i + 1;
    }
    return -1;
  }
}
