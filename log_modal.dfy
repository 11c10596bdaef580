/**
 * The "Log Today's Use" dialog: seven pieces of component state, the click
 * and input handlers that overwrite them, the conditionally-required
 * nicotine amount, and the two-step save (emit the entry and show an
 * encouragement screen; later, reset every field and close).
 */
module LogModal {
  import opened Wrappers
  import opened JsText
  import opened LogOptions

  /** Ids of the "What did you use?" buttons. */
  const ProductIds: seq<string> := ["cigarette", "vape", "pouch"]

  /** Ids of the "Compared to yesterday" buttons. */
  const UsageComparisonIds: seq<string> := ["reduced", "same", "increased"]

  /** The record handed to the dialog's `onSave` callback. */
  datatype LogData = LogData(
    mood: string,
    cravingLevel: string,
    note: string,
    nicotineProduct: Option<string>,
    nicotineAmount: Option<string>,
    usageComparison: Option<string>)

  /** A snapshot of the dialog's state; "" is the unset value of every text field. */
  datatype Form = Form(
    mood: string,
    craving: string,
    note: string,
    product: string,
    amount: string,
    comparison: string,
    showEncouragement: bool)

  const InitialForm := Form("", "", "", "", "", "", false)

  // ---------------------------------------------------------------------
  // Derived values

  /** The amount is required for the vape and pouch buttons, not for cigarettes. */
  function IsNicotineAmountRequired(product: string): (required: bool)
    ensures required <==> product in ProductIds && product != "cigarette"
  {
    product == "vape" || product == "pouch"
  }

  /**
   * Whether Save is enabled. The body follows the source's chain of
   * truthiness tests, including its redundant `selectedProduct &&`.
   */
  function IsFormValid(f: Form): (valid: bool)
    ensures valid <==> f.mood != "" && f.craving != ""
                       && (IsNicotineAmountRequired(f.product) ==> Trim(f.amount) != "")
  {
    f.mood != "" && f.craving != ""
    && (f.product == "" || (f.product != "" && (!IsNicotineAmountRequired(f.product) || Trim(f.amount) != "")))
  }

  /** With no product, or a cigarette, the amount never decides validity. */
  lemma AmountIrrelevantUnlessRequired(f: Form, amount: string)
    requires !IsNicotineAmountRequired(f.product)
    ensures IsFormValid(f.(amount := amount)) == IsFormValid(f)
    ensures IsFormValid(f) <==> f.mood != "" && f.craving != ""
  {
  }

  /** For vape and pouch, the form is valid iff the amount has a non-whitespace character. */
  lemma RequiredAmountDecides(f: Form)
    requires IsNicotineAmountRequired(f.product)
    ensures IsFormValid(f) <==> f.mood != "" && f.craving != "" && !AllWhitespace(f.amount)
  {
    TrimEmptyIff(f.amount);
  }

  /** The Save button's `disabled` attribute. */
  predicate SaveButtonDisabled(f: Form): (disabled: bool)
    ensures disabled <==>
      f.mood == "" || f.craving == "" || (IsNicotineAmountRequired(f.product) && AllWhitespace(f.amount))
  {
    TrimEmptyIff(f.amount);
    !IsFormValid(f)
  }

  // The source file stores these four emoji mis-decoded (UTF-8 bytes read as
  // Mac Roman), so the texts end in the characters it actually holds.
  const ReducedEncouragement :=
    "Great job cutting back again today! You're building incredible momentum. \U{F8FF}\U{FC}\U{E5}\U{FC}"
  const SameEncouragement :=
    "Consistency is key! Maintaining your level shows great self-control. Keep it up! \U{F8FF}\U{FC}\U{ED}\U{2122}"
  const IncreasedEncouragement :=
    "That's okay - progress isn't always linear. Tomorrow is a new opportunity to reduce again. \U{F8FF}\U{FC}\U{E5}\U{B1}"
  const DefaultEncouragement :=
    "Every entry helps us understand your patterns better. You're doing great! \U{201A}\U{FA}\U{AE}"

  /** The text of the encouragement screen, chosen by the usage comparison. */
  function AIEncouragement(comparison: string): (text: string)
    ensures comparison == "reduced" ==> text == ReducedEncouragement
    ensures comparison == "same" ==> text == SameEncouragement
    ensures comparison == "increased" ==> text == IncreasedEncouragement
    ensures text == DefaultEncouragement <==> comparison !in UsageComparisonIds
  {
    if comparison == "reduced" then ReducedEncouragement
    else if comparison == "same" then SameEncouragement
    else if comparison == "increased" then IncreasedEncouragement
    else DefaultEncouragement
  }

  /** Distinct comparisons get distinct messages; every other value gets the default. */
  lemma EncouragementDistinguishesComparisons(c1: string, c2: string)
    requires c1 in UsageComparisonIds && c1 != c2
    ensures AIEncouragement(c1) != AIEncouragement(c2)
  {
  }

  predicate EndsWith(s: string, suffix: string) {
    |suffix| <= |s| && s[|s| - |suffix|..] == suffix
  }

  /** The amount field's placeholder, chosen by the selected product. */
  function NicotineAmountPlaceholder(product: string): (text: string)
    ensures text == "Enter nicotine amount" <==> product !in ProductIds
    ensures EndsWith(text, "(optional)") <==> product in ProductIds && !IsNicotineAmountRequired(product)
  {
    match product
    case "cigarette" => "e.g., 12mg (optional)"
    case "vape" => "e.g., 6mg, 12mg, 18mg"
    case "pouch" => "e.g., 2mg, 4mg, 6mg"
    case _ => "Enter nicotine amount"
  }

  /**
   * The inline validation message, when shown. The source also tests
   * `!isFormValid` and `selectedProduct`; both are implied by the rest.
   */
  function ValidationMessage(f: Form): (message: Option<string>)
    ensures message.Some? <==> IsNicotineAmountRequired(f.product) && Trim(f.amount) == ""
    ensures message.Some? ==> !IsFormValid(f)
    ensures message.Some? && f.product == "vape" ==>
              message.value == "Nicotine amount is required for vapes"
    ensures message.Some? && f.product == "pouch" ==>
              message.value == "Nicotine amount is required for nicotine pouches"
  {
    if !IsFormValid(f) && f.product != "" && IsNicotineAmountRequired(f.product) && Trim(f.amount) == "" then
      Some("Nicotine amount is required for " + (if f.product == "vape" then "vapes" else "nicotine pouches"))
    else
      None
  }

  /** Reading an optional field back, `undefined` as "". */
  function OrEmpty(o: Option<string>): string {
    match o
    case None => ""
    case Some(s) => s
  }

  /** JavaScript's `s || undefined`: the empty string becomes absent. */
  function OrUndefined(s: string): (o: Option<string>)
    ensures OrEmpty(o) == s
    ensures o != Some("")
  {
    if s == "" then None else Some(s)
  }

  /** The record a valid save hands to `onSave`. */
  function BuildLogData(f: Form): (entry: LogData)
    ensures entry.mood == f.mood && entry.cravingLevel == f.craving && entry.note == f.note
    ensures OrEmpty(entry.nicotineProduct) == f.product
    ensures OrEmpty(entry.usageComparison) == f.comparison
    ensures OrEmpty(entry.nicotineAmount) == Trim(f.amount)
    ensures entry.nicotineProduct != Some("") && entry.usageComparison != Some("")
    ensures entry.nicotineAmount != Some("")
    ensures entry.nicotineAmount.Some? ==> Trim(entry.nicotineAmount.value) == entry.nicotineAmount.value
  {
    var amount := Trim(f.amount);
    TrimIdempotent(f.amount);
    LogData(f.mood, f.craving, f.note, OrUndefined(f.product), OrUndefined(amount), OrUndefined(f.comparison))
  }

  // ---------------------------------------------------------------------
  // Events and transitions

  datatype FormEvent =
    | ComparisonClicked(id: string)
    | MoodClicked(value: string)
    | CravingClicked(value: string)
    | ProductClicked(id: string)
    | AmountEdited(text: string)
    | NoteEdited(text: string)
    | SaveClicked
    | SaveTimerFires   // the delayed second half of the save

  /** A product button deselects the current product and selects any other. */
  function ToggleProduct(current: string, id: string): (next: string)
    ensures next == "" <==> current == id || id == ""
    ensures next != "" ==> next == id
  {
    if current == id then "" else id
  }

  /** The state after one event. */
  function Next(f: Form, e: FormEvent): (g: Form)
    ensures e.SaveClicked? ==> g.(showEncouragement := f.showEncouragement) == f
    ensures e.SaveClicked? ==> (g.showEncouragement <==> f.showEncouragement || IsFormValid(f))
    ensures e.SaveTimerFires? ==> g == InitialForm
    ensures e.MoodClicked? ==> g == f.(mood := e.value)
    ensures e.CravingClicked? ==> g == f.(craving := e.value)
    ensures e.ComparisonClicked? ==> g == f.(comparison := e.id)
  {
    match e
    case ComparisonClicked(id) => f.(comparison := id)
    case MoodClicked(v) => f.(mood := v)
    case CravingClicked(v) => f.(craving := v)
    case ProductClicked(id) => f.(product := ToggleProduct(f.product, id))
    case AmountEdited(t) => f.(amount := t)
    case NoteEdited(t) => f.(note := t)
    case SaveClicked => if IsFormValid(f) then f.(showEncouragement := true) else f
    case SaveTimerFires => InitialForm
  }

  /** What an event hands to `onSave`: a record exactly on a save of a valid form. */
  function Emitted(f: Form, e: FormEvent): (entry: Option<LogData>)
    ensures entry.Some? <==> e.SaveClicked? && !SaveButtonDisabled(f)
    ensures entry.Some? ==> entry.value == BuildLogData(f)
  {
    if e.SaveClicked? && IsFormValid(f) then Some(BuildLogData(f)) else None
  }

  /** Saving an invalid form emits nothing and changes nothing. */
  lemma InvalidSaveIsNoOp(f: Form)
    requires !IsFormValid(f)
    ensures Next(f, SaveClicked) == f && Emitted(f, SaveClicked) == None
  {
  }

  /** The events the screen offers in state `f`. */
  predicate Available(f: Form, e: FormEvent) {
    match e
    case SaveTimerFires => f.showEncouragement
    case SaveClicked => !f.showEncouragement && !SaveButtonDisabled(f)
    case MoodClicked(v) => !f.showEncouragement && IsOptionValue(MoodOptions, v)
    case CravingClicked(v) => !f.showEncouragement && IsOptionValue(CravingLevels, v)
    case ProductClicked(id) => !f.showEncouragement && id in ProductIds
    case ComparisonClicked(id) => !f.showEncouragement && id in UsageComparisonIds
    case AmountEdited(_) => !f.showEncouragement && f.product != ""
    case NoteEdited(_) => !f.showEncouragement
  }

  /** Every selection is unset or a button's value; the encouragement follows a valid save. */
  predicate WellFormed(f: Form) {
    && (f.mood == "" || IsOptionValue(MoodOptions, f.mood))
    && (f.craving == "" || IsOptionValue(CravingLevels, f.craving))
    && (f.product == "" || f.product in ProductIds)
    && (f.comparison == "" || f.comparison in UsageComparisonIds)
    && (f.showEncouragement ==> IsFormValid(f))
  }

  function Run(f: Form, es: seq<FormEvent>): Form
    decreases |es|
  {
    if es == [] then f else Run(Next(f, es[0]), es[1..])
  }

  /** `es` can be performed one after another from `f`. */
  predicate IsTrace(f: Form, es: seq<FormEvent>)
    decreases |es|
  {
    es == [] || (Available(f, es[0]) && IsTrace(Next(f, es[0]), es[1..]))
  }

  lemma StepKeepsWellFormed(f: Form, e: FormEvent)
    requires WellFormed(f) && Available(f, e)
    ensures WellFormed(Next(f, e))
  {
  }

  /** Every state the dialog can reach from its initial state is well formed. */
  lemma {:induction false} ReachableFormsAreWellFormed(f: Form, es: seq<FormEvent>)
    requires WellFormed(f) && IsTrace(f, es)
    ensures WellFormed(Run(f, es))
    decreases |es|
  {
    if es != [] {
      StepKeepsWellFormed(f, es[0]);
      ReachableFormsAreWellFormed(Next(f, es[0]), es[1..]);
    }
  }

  lemma InitialFormIsWellFormed()
    ensures WellFormed(InitialForm) && !IsFormValid(InitialForm)
  {
  }

  /** A save from a well-formed state emits a mood and a craving that are button values. */
  lemma SavedSelectionsAreOptions(f: Form)
    requires WellFormed(f) && IsFormValid(f)
    ensures IsOptionValue(MoodOptions, BuildLogData(f).mood)
    ensures IsOptionValue(CravingLevels, BuildLogData(f).cravingLevel)
  {
  }

  /**
   * A save from a well-formed state emits optional fields that are absent or
   * button ids, and an amount whenever the product requires one.
   */
  lemma SavedOptionalFieldsAreNormalised(f: Form)
    requires WellFormed(f) && IsFormValid(f)
    ensures BuildLogData(f).nicotineProduct.Some? ==> BuildLogData(f).nicotineProduct.value in ProductIds
    ensures BuildLogData(f).usageComparison.Some? ==> BuildLogData(f).usageComparison.value in UsageComparisonIds
    ensures IsNicotineAmountRequired(f.product) ==> BuildLogData(f).nicotineAmount.Some?
  {
  }

  /** Select vape, type an amount, deselect vape, then choose a mood and a craving. */
  function DeselectAfterTyping(): seq<FormEvent> {
    [ProductClicked("vape"), AmountEdited("6mg"), ProductClicked("vape"), MoodClicked("great"), CravingClicked("none")]
  }

  lemma DeselectAfterTypingRuns()
    ensures IsTrace(InitialForm, DeselectAfterTyping())
    ensures Run(InitialForm, DeselectAfterTyping()) == Form("great", "none", "", "", "6mg", "", false)
  {
    var es := DeselectAfterTyping();
    var e0, e1, e2, e3, e4 := es[0], es[1], es[2], es[3], es[4];
    var f1 := InitialForm.(product := "vape");
    var f2 := f1.(amount := "6mg");
    var f3 := f2.(product := "");
    var f4 := f3.(mood := "great");
    var f5 := f4.(craving := "none");
    assert es[1..] == [e1, e2, e3, e4] && es[1..][1..] == [e2, e3, e4];
    assert es[1..][1..][1..] == [e3, e4] && es[1..][1..][1..][1..] == [e4];
    assert Run(f4, [e4]) == f5;
    assert Run(f3, [e3, e4]) == f5;
    assert Run(f2, [e2, e3, e4]) == f5;
    assert Run(f1, [e1, e2, e3, e4]) == f5;
    assert IsOptionValue(MoodOptions, "great") by { assert MoodOptions[0].value == "great"; }
    assert IsOptionValue(CravingLevels, "none") by { assert CravingLevels[0].value == "none"; }
    assert IsTrace(f4, [e4]);
    assert IsTrace(f3, [e3, e4]);
    assert IsTrace(f2, [e2, e3, e4]);
    assert IsTrace(f1, [e1, e2, e3, e4]);
  }

  /**
   * Deselecting the product hides the amount input but keeps its text, so a
   * later save emits an amount with no product.
   */
  lemma AmountOutlivesDeselectedProduct()
    ensures IsTrace(InitialForm, DeselectAfterTyping())
    ensures Emitted(Run(InitialForm, DeselectAfterTyping()), SaveClicked)
              == Some(LogData("great", "none", "", None, Some("6mg"), None))
  {
    DeselectAfterTypingRuns();
    var f := Form("great", "none", "", "", "6mg", "", false);
    assert TrimStart("6mg") == "6mg" && TrimEnd("6mg") == "6mg";
    assert IsFormValid(f);
    assert BuildLogData(f) == LogData("great", "none", "", None, Some("6mg"), None);
  }

  // ---------------------------------------------------------------------
  // The component

  class LogTodayModal {
    var selectedMood: string
    var selectedCraving: string
    var note: string
    var selectedProduct: string
    var nicotineAmount: string
    var usageComparison: string
    var showAIEncouragement: bool

    function State(): Form
      reads this
    {
      Form(selectedMood, selectedCraving, note, selectedProduct, nicotineAmount,
           usageComparison, showAIEncouragement)
    }

    constructor ()
      ensures State() == InitialForm
    {
      selectedMood, selectedCraving, note := "", "", "";
      selectedProduct, nicotineAmount, usageComparison := "", "", "";
      showAIEncouragement := false;
    }

    method SelectUsageComparison(id: string)
      modifies this
      ensures State() == Next(old(State()), ComparisonClicked(id))
    {
      usageComparison := id;
    }

    method SelectMood(value: string)
      modifies this
      ensures State() == Next(old(State()), MoodClicked(value))
    {
      selectedMood := value;
    }

    method SelectCraving(value: string)
      modifies this
      ensures State() == Next(old(State()), CravingClicked(value))
    {
      selectedCraving := value;
    }

    method ClickProduct(id: string)
      modifies this
      ensures State() == Next(old(State()), ProductClicked(id))
    {
      selectedProduct := if selectedProduct == id then "" else id;
    }

    method SetNicotineAmount(text: string)
      modifies this
      ensures State() == Next(old(State()), AmountEdited(text))
    {
      nicotineAmount := text;
    }

    method SetNote(text: string)
      modifies this
      ensures State() == Next(old(State()), NoteEdited(text))
    {
      note := text;
    }

    /** First half of `handleSave`: emit the entry and show the encouragement. */
    method HandleSave() returns (entry: Option<LogData>)
      modifies this
      ensures entry == Emitted(old(State()), SaveClicked)
      ensures State() == Next(old(State()), SaveClicked)
    {
      if IsFormValid(State()) {
        entry := Some(LogData(selectedMood, selectedCraving, note, OrUndefined(selectedProduct),
                              OrUndefined(Trim(nicotineAmount)), OrUndefined(usageComparison)));
        showAIEncouragement := true;
      } else {
        entry := None;
      }
    }

    /** Second half of `handleSave`, run when its timer fires: reset every field. */
    method CompleteSave()
      modifies this
      ensures State() == Next(old(State()), SaveTimerFires)
      ensures State() == InitialForm
    {
      showAIEncouragement := false;
      selectedMood, selectedCraving, note := "", "", "";
      selectedProduct, nicotineAmount, usageComparison := "", "", "";
    }
  }
}
