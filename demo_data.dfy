/**
 * The demonstration seed: four wrong attempts placed 12, 8, 5 and 2 minutes
 * before a base time, two on adding/subtracting fractions with a denominator
 * mismatch and two on negatives with a sign error. The base time and the
 * four generated ids are parameters.
 */
module DemoData {
  import opened Wrappers
  import opened Types

  const Minute: real := 60000.0

  /** `seededDemoEvents`, for the clock reading `base` and the ids `ids`. */
  function SeedEvents(base: real, ids: seq<string>): (s: seq<AttemptEvent>)
    requires |ids| == 4
    ensures |s| == 4
    ensures forall i :: 0 <= i < 4 ==> s[i].id == ids[i]
    ensures forall i :: 0 <= i < 4 ==> !s[i].isCorrect && s[i].errorCode.Some?
    ensures forall i, j :: 0 <= i < j < 4 ==> s[i].ts < s[j].ts < base
    ensures forall i :: 0 <= i < 2 ==> s[i].conceptTags == [FractionsAddSub] && s[i].errorCode == Some(DenominatorMismatch)
    ensures forall i :: 2 <= i < 4 ==> s[i].conceptTags == [NegativesSigns] && s[i].errorCode == Some(SignError)
  {
    [ AttemptEvent(ids[0], base - 12.0 * Minute, "P-1041", "Compute: 1/3 + 1/6", [FractionsAddSub],
                   "2/9", "1/2", false, 74.0, 2.0, Some(DenominatorMismatch)),
      AttemptEvent(ids[1], base - 8.0 * Minute, "P-1047", "Compute: 2/5 - 1/10", [FractionsAddSub],
                   "1/5", "3/10", false, 68.0, 1.0, Some(DenominatorMismatch)),
      AttemptEvent(ids[2], base - 5.0 * Minute, "P-2102", "Simplify: -3 - (-7)", [NegativesSigns],
                   "-10", "4", false, 42.0, 1.0, Some(SignError)),
      AttemptEvent(ids[3], base - 2.0 * Minute, "P-2106", "Compute: -2 × (-5)", [NegativesSigns],
                   "-10", "10", false, 36.0, 0.0, Some(SignError)) ]
  }
}
