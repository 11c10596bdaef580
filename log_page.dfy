/**
 * The simpler "Daily Log" page: a mood and a craving chosen by buttons, and
 * a "Save Entry" button that is enabled once both are chosen but has no
 * click handler.
 */
module LogPage {
  import opened LogOptions
  import LogModal

  datatype PageState = PageState(mood: string, craving: string)

  const InitialPage := PageState("", "")

  datatype PageEvent =
    | MoodClicked(value: string)
    | CravingClicked(value: string)
    | SaveEntryClicked

  /** The `disabled` attribute of "Save Entry". */
  function SaveEntryDisabled(s: PageState): (disabled: bool)
    ensures disabled <==> !LogModal.IsFormValid(LogModal.InitialForm.(mood := s.mood, craving := s.craving))
    ensures s == InitialPage ==> disabled
  {
    s.mood == "" || s.craving == ""
  }

  /**
   * The page's enable rule is the dialog's validity rule for a form with no
   * product selected, whatever the dialog's other fields hold.
   */
  lemma SaveEntryMatchesModalRule(s: PageState, f: LogModal.Form)
    requires f.mood == s.mood && f.craving == s.craving && f.product == ""
    ensures !SaveEntryDisabled(s) <==> LogModal.IsFormValid(f)
  {
  }

  /** Mood and craving buttons overwrite; "Save Entry" changes nothing. */
  function Next(s: PageState, e: PageEvent): (t: PageState)
    ensures e.SaveEntryClicked? ==> t == s
    ensures e.MoodClicked? ==> t.mood == e.value && t.craving == s.craving
    ensures e.CravingClicked? ==> t.craving == e.value && t.mood == s.mood
  {
    match e
    case MoodClicked(v) => s.(mood := v)
    case CravingClicked(v) => s.(craving := v)
    case SaveEntryClicked => s
  }

  /** The page's buttons: option values only. */
  predicate IsButtonEvent(e: PageEvent) {
    match e
    case MoodClicked(v) => IsOptionValue(MoodOptions, v)
    case CravingClicked(v) => IsOptionValue(CravingLevels, v)
    case SaveEntryClicked => true
  }

  function Run(s: PageState, es: seq<PageEvent>): PageState
    decreases |es|
  {
    if es == [] then s else Run(Next(s, es[0]), es[1..])
  }

  /**
   * There is no deselect: once a mood (craving) has been chosen, or a mood
   * (craving) button appears among the clicks, the field is set at the end.
   */
  lemma {:induction false} SelectionsPersist(s: PageState, es: seq<PageEvent>)
    requires forall k :: 0 <= k < |es| ==> IsButtonEvent(es[k])
    ensures (s.mood != "" || exists k :: 0 <= k < |es| && es[k].MoodClicked?) ==> Run(s, es).mood != ""
    ensures (s.craving != "" || exists k :: 0 <= k < |es| && es[k].CravingClicked?) ==> Run(s, es).craving != ""
    decreases |es|
  {
    if es != [] {
      var t := Next(s, es[0]);
      match es[0] {
        case MoodClicked(v) => OptionValuesAreSet(v);
        case CravingClicked(v) => OptionValuesAreSet(v);
        case SaveEntryClicked =>
      }
      SelectionsPersist(t, es[1..]);
      assert forall k :: 1 <= k < |es| ==> es[k] == es[1..][k - 1];
    }
  }

  class LogPage {
    var selectedMood: string
    var selectedCraving: string

    function State(): PageState
      reads this
    {
      PageState(selectedMood, selectedCraving)
    }

    constructor ()
      ensures State() == InitialPage
    {
      selectedMood, selectedCraving := "", "";
    }

    method SelectMood(value: string)
      modifies this
      ensures State() == Next(old(State()), MoodClicked(value))
    {
      selectedMood := value;
    }

    method SetCraving(value: string)
      modifies this
      ensures State() == Next(old(State()), CravingClicked(value))
    {
      selectedCraving := value;
    }

    /** "Save Entry" has no `onClick`: pressing it changes nothing. */
    method PressSaveEntry()
      ensures State() == Next(old(State()), SaveEntryClicked)
    {
    }
  }
}
