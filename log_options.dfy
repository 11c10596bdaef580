/**
 * The mood and craving choices offered by both daily-log screens (the
 * log-today modal and the Log page). Each button writes its `value`.
 */
module LogOptions {

  datatype Choice = Choice(caption: string, value: string)

  const MoodOptions: seq<Choice> := [
    Choice("Great", "great"),
    Choice("Good", "good"),
    Choice("Okay", "okay"),
    Choice("Struggling", "struggling")
  ]

  const CravingLevels: seq<Choice> := [
    Choice("None", "none"),
    Choice("Low", "low"),
    Choice("Medium", "medium"),
    Choice("High", "high")
  ]

  /** `v` is what some button of `options` writes. */
  predicate IsOptionValue(options: seq<Choice>, v: string) {
    exists i :: 0 <= i < |options| && options[i].value == v
  }

  /** No mood or craving button writes the unset value "". */
  lemma OptionValuesAreSet(v: string)
    requires IsOptionValue(MoodOptions, v) || IsOptionValue(CravingLevels, v)
    ensures v != ""
  {
    var options := if IsOptionValue(MoodOptions, v) then MoodOptions else CravingLevels;
    var i :| 0 <= i < |options| && options[i].value == v;
    assert options[i].value != "";
  }
}
