# NicotineFree screens: the rules behind the UI

A Dafny model of the small amount of real logic in a front-end prototype
for a nicotine-reduction tracker. Almost everything in the app is markup
over mock data; what is modelled is the component state and the rules
that decide it:

- **The "Log Today's Use" dialog** (`LogModal`). Seven fields of component
  state: mood, craving, note, product, amount, usage comparison and the
  encouragement flag. The click and input handlers overwrite them, and a
  product button toggles. The nicotine amount is required only for vapes and
  pouches. Save works in two steps: first it emits a normalised `LogData`
  record and shows the encouragement screen; later its timer resets every
  field and closes the dialog. The component is the class `LogTodayModal`.
  Its methods are specified by the pure transition function `Next` on a
  `Form` snapshot, and the dialog's rules are lemmas about `Next` and about
  traces of UI events.
- **The Log page** (`LogPage`): mood and craving buttons, and a "Save Entry"
  button that is enabled once both are chosen but has no click handler.
- **The community chat** (`CommunityChat`): the draft input, the send
  guard (the draft must hold more than whitespace), the Enter key, and a
  message list that has no setter.
- **The home page** (`IndexPage`): the dark-mode, dialog-open and
  logged-today flags; the log button's caption; the borders of the 2 x 2
  metrics grid; the reduction-progress dots. The page owns the dialog
  object and wires its `onSave` and `onClose`.
- **Achievements** (`Achievements`): the earned/locked split of a fixed
  list and the "N of M Earned" header.
- **Progress dots** (`ProgressDots`): `totalDots` dots with the first
  `filledDots` filled; the defaults are 7 and 1.
- **Bottom navigation** (`BottomNavigation`): five fixed destinations. An
  item is highlighted when the pathname is exactly its path. The pathname
  is an input to the model.

`JsText` models JavaScript's `String.prototype.trim`. It strips leading
and trailing characters that satisfy `IsWhitespace`, which lists
ECMAScript's WhiteSpace and LineTerminator characters. The proofs about
the components use the general trim lemmas (`TrimEmptyIff`, `TrimIsSlice`,
`TrimIdempotent`). The one exception is
`LogModal.AmountOutlivesDeselectedProduct`, which trims the concrete text
"6mg". That proof needs the fact, stated in the contract of `IsWhitespace`,
that no digit or ASCII letter is whitespace. A JavaScript string is falsy
exactly when it is empty, and "" is the unset value of every selection.

Two points of the code are easy to get wrong:

- A valid save does not reset the form at once. The reset is a second,
  delayed step that runs after the encouragement screen has been shown
  (src/components/ui/log-today-modal.tsx:142-152). That step is `CompleteSave`.
- The encouragement texts (src/components/ui/log-today-modal.tsx:118-124) and
  two seeded chat messages (src/pages/CommunityChat.tsx:26 and 59) end in
  emoji whose UTF-8 bytes were stored as if they were Mac Roman or
  Windows-1254 text. The model keeps the characters the source actually
  holds, since those are what the app displays.

## Model

| member | source | states |
|---|---|---|
| `LogModal.IsNicotineAmountRequired` | src/components/ui/log-today-modal.tsx:107-108 | the amount is required exactly for the products in the button table other than "cigarette" (vape, pouch); never for "" |
| `LogModal.IsFormValid` | src/components/ui/log-today-modal.tsx:109-114 | the source's truthiness chain is equivalent to: mood set, craving set, and a required amount is non-blank after trimming |
| `LogModal.AmountIrrelevantUnlessRequired` | src/components/ui/log-today-modal.tsx:109-114 | with no product or a cigarette, changing the amount never changes validity, and validity is just "mood and craving set" |
| `LogModal.RequiredAmountDecides` | src/components/ui/log-today-modal.tsx:109-114 | for vape or pouch, the form is valid iff mood and craving are set and the amount contains a non-whitespace character |
| `LogModal.AIEncouragement` | src/components/ui/log-today-modal.tsx:116-125 | "reduced", "same" and "increased" get their own messages; the default message is returned exactly for values outside the comparison table; the four texts are the literals at lines 118-124 character for character, including their mis-decoded emoji |
| `LogModal.EncouragementDistinguishesComparisons` | src/components/ui/log-today-modal.tsx:116-125 | a comparison from the table gets a message different from that of any other value |
| `LogModal.NicotineAmountPlaceholder` | src/components/ui/log-today-modal.tsx:156-167 | the generic placeholder appears exactly when no known product is selected; the placeholder ends in "(optional)" exactly for the product whose amount is optional |
| `LogModal.SaveButtonDisabled` | src/components/ui/log-today-modal.tsx:416 | Save is disabled exactly when the mood or craving is unset, or the product requires an amount and the amount is all whitespace |
| `LogModal.ValidationMessage` | src/components/ui/log-today-modal.tsx:425-437 | the message shows iff the product requires an amount and the trimmed amount is empty (the `!isFormValid` test is implied); the form is then invalid; the text names "vapes" for vape and "nicotine pouches" for pouch |
| `LogModal.OrUndefined` | src/components/ui/log-today-modal.tsx:133-135 | `s \|\| undefined` never yields a present empty string, and reading it back with "" for absent returns `s` |
| `LogModal.BuildLogData` | src/components/ui/log-today-modal.tsx:129-136 | the record copies mood, craving and note verbatim; product and comparison read back as the form's values and are absent rather than ""; the amount reads back as the trimmed text, is absent rather than "", and is already trimmed when present |
| `LogModal.ToggleProduct` | src/components/ui/log-today-modal.tsx:332-335 | a product click deselects exactly when that product is the current one; otherwise it selects that product |
| `LogModal.Next` | src/components/ui/log-today-modal.tsx:127-154 | saving edits no field and sets the encouragement flag exactly when the form is valid (or it was already set); the save timer returns the form to its initial state; mood, craving and comparison clicks overwrite and never deselect |
| `LogModal.Emitted` | src/components/ui/log-today-modal.tsx:127-136 | an event hands a record to `onSave` exactly when it is a save and the Save button is not disabled; the record is `BuildLogData` of the form |
| `LogModal.InvalidSaveIsNoOp` | src/components/ui/log-today-modal.tsx:127-128 | saving an invalid form emits nothing and leaves every field unchanged |
| `LogModal.StepKeepsWellFormed` | src/components/ui/log-today-modal.tsx:240-335 | every event the screen offers keeps each selection unset or equal to a button value, and keeps "encouragement shown implies form valid" |
| `LogModal.ReachableFormsAreWellFormed` | src/components/ui/log-today-modal.tsx:175-416 | along any sequence of offered events (form events only while the form is shown, the amount input only with a product, Save only when enabled, the timer only after a save), the state stays well formed |
| `LogModal.InitialFormIsWellFormed` | src/components/ui/log-today-modal.tsx:37-44 | the initial state (all fields "", flag off) is well formed and not valid, so a fresh dialog's Save is disabled |
| `LogModal.SavedSelectionsAreOptions` | src/components/ui/log-today-modal.tsx:129-131 | a save from a well-formed state emits a mood and a craving that are button values |
| `LogModal.SavedOptionalFieldsAreNormalised` | src/components/ui/log-today-modal.tsx:132-135 | the emitted product and comparison are absent or button ids, and an amount is always present when the product requires one |
| `LogModal.DeselectAfterTypingRuns` | src/components/ui/log-today-modal.tsx:361-389 | selecting vape, typing "6mg", deselecting vape and choosing mood and craving is a sequence of offered events that leaves "6mg" in the hidden amount field |
| `LogModal.AmountOutlivesDeselectedProduct` | src/components/ui/log-today-modal.tsx:129-136 | after that sequence, Save emits an entry with the amount "6mg" and no product |
| `LogModal.LogTodayModal.constructor` | src/components/ui/log-today-modal.tsx:37-44 | the dialog starts with all six text fields "" and the encouragement flag off |
| `LogModal.LogTodayModal.SelectUsageComparison` | src/components/ui/log-today-modal.tsx:243 | the comparison button overwrites the comparison, nothing else changes |
| `LogModal.LogTodayModal.SelectMood` | src/components/ui/log-today-modal.tsx:277 | the mood button overwrites the mood, nothing else changes |
| `LogModal.LogTodayModal.SelectCraving` | src/components/ui/log-today-modal.tsx:304 | the craving button overwrites the craving, nothing else changes |
| `LogModal.LogTodayModal.ClickProduct` | src/components/ui/log-today-modal.tsx:332-335 | the product button toggles the product as `ToggleProduct` says, nothing else changes |
| `LogModal.LogTodayModal.SetNicotineAmount` | src/components/ui/log-today-modal.tsx:381 | typing replaces the amount text, nothing else changes |
| `LogModal.LogTodayModal.SetNote` | src/components/ui/log-today-modal.tsx:398 | typing replaces the note, nothing else changes |
| `LogModal.LogTodayModal.HandleSave` | src/components/ui/log-today-modal.tsx:127-140 | returns exactly what `Emitted` says and leaves the fields as `Next` says: the record and the encouragement flag on a valid form, nothing at all otherwise |
| `LogModal.LogTodayModal.CompleteSave` | src/components/ui/log-today-modal.tsx:142-152 | the delayed second step clears the flag and resets all six fields to "", which is the initial state |
| `LogOptions.OptionValuesAreSet` | src/components/ui/log-today-modal.tsx:48-60 | no mood or craving button writes the unset value "" |
| `JsText.IsWhitespace` | src/components/ui/log-today-modal.tsx:134 | `trim` strips space, tab, LF and CR, and never strips a digit or an ASCII letter |
| `JsText.TrimStart` | src/components/ui/log-today-modal.tsx:134 | the result is a suffix of the input, does not start with whitespace, and everything removed is whitespace |
| `JsText.TrimEnd` | src/components/ui/log-today-modal.tsx:134 | the result is a prefix of the input, does not end with whitespace, and everything removed is whitespace |
| `JsText.Trim` | src/components/ui/log-today-modal.tsx:134 | the trimmed text is no longer than the input and neither starts nor ends with whitespace |
| `JsText.TrimIsSlice` | src/components/ui/log-today-modal.tsx:134 | the trimmed text is a contiguous slice of the input and only whitespace was cut from either end |
| `JsText.TrimEmptyIff` | src/pages/CommunityChat.tsx:66 | `s.trim()` is falsy exactly when every character of `s` is whitespace |
| `JsText.TrimIdempotent` | src/components/ui/log-today-modal.tsx:134 | trimming an already trimmed text changes nothing |
| `LogPage.SaveEntryDisabled` | src/pages/Log.tsx:126 | "Save Entry" is disabled exactly when the dialog would reject an otherwise empty form with the same mood and craving, so it is disabled on a fresh page |
| `LogPage.SaveEntryMatchesModalRule` | src/pages/Log.tsx:126 | "Save Entry" is enabled iff the dialog's validity rule holds for the same mood and craving with no product, whatever the amount, note or comparison |
| `LogPage.Next` | src/pages/Log.tsx:76-129 | mood and craving clicks overwrite their own field only; pressing "Save Entry" changes nothing |
| `LogPage.SelectionsPersist` | src/pages/Log.tsx:14-105 | along any sequence of button clicks, a chosen mood or craving, or one clicked at any point, is still set at the end: there is no deselect |
| `LogPage.LogPage.constructor` | src/pages/Log.tsx:11-12 | the page starts with neither mood nor craving chosen |
| `LogPage.LogPage.SelectMood` | src/pages/Log.tsx:79 | the mood button overwrites the mood with its value |
| `LogPage.LogPage.SetCraving` | src/pages/Log.tsx:105 | the craving button overwrites the craving with its value |
| `LogPage.LogPage.PressSaveEntry` | src/pages/Log.tsx:124-129 | the button has no click handler, so pressing it leaves the state unchanged |
| `CommunityChat.SendDisabled` | src/pages/CommunityChat.tsx:200 | the send button is disabled exactly when the draft is empty or all whitespace |
| `CommunityChat.AfterSend` | src/pages/CommunityChat.tsx:65-71 | a blank draft is left as it is; a non-blank draft is cleared; either way the send button is disabled afterwards |
| `CommunityChat.DisabledIffSendIsNoOp` | src/pages/CommunityChat.tsx:200 | the send button is disabled exactly when sending would change nothing |
| `CommunityChat.SecondSendIsNoOp` | src/pages/CommunityChat.tsx:65-71 | of two sends in a row, the second never does anything |
| `CommunityChat.ChatPage.constructor` | src/pages/CommunityChat.tsx:20 | the draft starts empty |
| `CommunityChat.ChatPage.OnlineCount` | src/pages/CommunityChat.tsx:95 | the header's "members online" count is the length of the seeded list (src/pages/CommunityChat.tsx:21-63), and since that list has no setter, the count is always 5 |
| `CommunityChat.ChatPage.SetNewMessage` | src/pages/CommunityChat.tsx:193 | typing replaces the draft |
| `CommunityChat.ChatPage.HandleSendMessage` | src/pages/CommunityChat.tsx:65-71 | the draft becomes `AfterSend` of the old draft; the message list is a constant field, so sending never appends |
| `CommunityChat.ChatPage.OnKeyPress` | src/pages/CommunityChat.tsx:196 | Enter has exactly the effect of the send handler; any other key leaves the draft unchanged |
| `IndexPage.Next` | src/pages/Index.tsx:46-313 | the toggle negates `isDark` only; the log button opens the dialog; `onClose` closes it; `onSave` sets `hasLoggedToday` whatever the entry; no event clears `hasLoggedToday` |
| `IndexPage.ToggleTwiceRestores` | src/pages/Index.tsx:46-47 | toggling dark mode twice restores the original flags |
| `IndexPage.LoggedTodayIsPermanent` | src/pages/Index.tsx:61-65 | along any sequence of page events, `hasLoggedToday` once true stays true, and any saved log makes it true |
| `IndexPage.LogButtonLabel` | src/pages/Index.tsx:213-219 | the caption is "Update Today's Use" iff a log was saved today, and "Log Today's Use" otherwise |
| `IndexPage.HasRightBorder` | src/pages/Index.tsx:260-270 | a metrics cell has a right border exactly when another cell follows it in its row of the 2-column grid |
| `IndexPage.HasBottomBorder` | src/pages/Index.tsx:261-273 | a metrics cell has a bottom border exactly when another cell sits below it |
| `IndexPage.ReductionProgress` | src/pages/Index.tsx:203 | the home page's progress row has seven dots, the first five filled |
| `IndexPage.Index.constructor` | src/pages/Index.tsx:22-25 | all three flags start false and the dialog starts in its initial state |
| `IndexPage.Index.ToggleDarkMode` | src/pages/Index.tsx:46-49 | negates `isDark`, nothing else changes |
| `IndexPage.Index.ClickLogButton` | src/pages/Index.tsx:210 | opens the dialog, nothing else changes |
| `IndexPage.Index.CloseLogModal` | src/pages/Index.tsx:312 | closes the dialog, nothing else changes |
| `IndexPage.Index.HandleLogSave` | src/pages/Index.tsx:61-65 | sets `hasLoggedToday` whatever the payload |
| `IndexPage.Index.SaveLog` | src/pages/Index.tsx:310-314 | the dialog's save runs; `hasLoggedToday` is set exactly when the dialog emitted an entry |
| `IndexPage.Index.FinishLogSave` | src/pages/Index.tsx:312 | when the save timer fires, the dialog resets to its initial state and then closes |
| `Achievements.Earned` | src/pages/Achievements.tsx:89 | the earned list holds exactly the achievements with `earned` true |
| `Achievements.Locked` | src/pages/Achievements.tsx:90 | the locked list holds exactly the achievements with `earned` false |
| `Achievements.FiltersKeepOrder` | src/pages/Achievements.tsx:89-90 | both filters distribute over concatenation, so each keeps the original order |
| `Achievements.FiltersPartition` | src/pages/Achievements.tsx:89-90 | every achievement is in exactly one list: the list sizes add up to the total and the multisets add up to the original |
| `Achievements.ProgressHeader` | src/pages/Achievements.tsx:122 | the header reports at most as many earned achievements as there are, and the difference is the number of locked ones |
| `Achievements.ShowsEarnedSection` | src/pages/Achievements.tsx:132 | the earned section is rendered iff some achievement is earned |
| `Achievements.ShippedHeader` | src/pages/Achievements.tsx:11-87 | with the shipped list the header reads 3 of 9 |
| `ProgressDots.Dots` | src/components/ui/progress-dots.tsx:18 | exactly `totalDots` dots are rendered, and none for a negative count |
| `ProgressDots.FilledCount` | src/components/ui/progress-dots.tsx:18-23 | the number of filled dots is `filledDots` clamped to 0 and to the row length |
| `ProgressDots.FilledDotsFormPrefix` | src/components/ui/progress-dots.tsx:23 | dot `i` is filled iff `i < filledDots`, so the row is a run of filled dots followed by a run of empty ones |
| `ProgressDots.CountFilledDots` | src/components/ui/progress-dots.tsx:18-23 | the row holds exactly `FilledCount` filled dots |
| `ProgressDots.FillExtremes` | src/components/ui/progress-dots.tsx:23 | every dot is filled when `filledDots >= totalDots`, and none when `filledDots <= 0` |
| `ProgressDots.DefaultDots` | src/components/ui/progress-dots.tsx:11 | with the default props the row has seven dots, one filled |
| `BottomNavigation.NavItemPathsAreDistinct` | src/components/ui/bottom-navigation.tsx:12-18 | the table has five items and no two share a path |
| `BottomNavigation.IsActive` | src/components/ui/bottom-navigation.tsx:29 | when an item of the table is active, no other item of the table has the current pathname as its path |
| `BottomNavigation.NavigationTarget` | src/components/ui/bottom-navigation.tsx:34 | clicking item `i` navigates to a path at which the search for the active item finds item `i` |
| `BottomNavigation.FindActive` | src/components/ui/bottom-navigation.tsx:27-29 | finds an item whose path equals the pathname when one exists, and otherwise reports that no item is active |
| `BottomNavigation.AtMostOneActive` | src/components/ui/bottom-navigation.tsx:29 | since the paths are distinct, at most one item is highlighted |
| `BottomNavigation.ClickHighlightsExactlyThatItem` | src/components/ui/bottom-navigation.tsx:34 | clicking item `i` navigates to its path, which highlights item `i` and no other |
| `BottomNavigation.UnlistedPathHighlightsNothing` | src/components/ui/bottom-navigation.tsx:12-29 | a pathname outside the table, such as "/log", highlights nothing |

## Left out

- Rendering is not modelled: JSX, Tailwind classes, colours, icons, and the
  `Card`, `Button` and `cn` helpers, which are not part of this model.
  Neither is the required/optional marker beside the amount heading.
- Timers are not modelled. The dialog's three-second `setTimeout` is the
  explicit step `CompleteSave`, with no notion of time. The home page's
  clock interval and the quote's fade-in timeout are dropped.
- Date and time formatting (`toLocaleDateString`, `toLocaleTimeString`) is
  left out: it depends on the locale and the clock.
- Side effects are left out: `console.log`, the DOM class toggled by the
  dark-mode button, and the router's `navigate` and `useLocation`. The
  pathname is an input, and a click is modelled by the path it requests.
- The locked achievements section is rendered unconditionally, so there is
  no rule to model for it.
- Whether a handler can be reached at all is not part of the class
  methods. In the app a hidden or disabled button cannot be clicked, but the
  methods accept any call in any state. Reachability is modelled only by
  `LogModal.Available` and the trace lemmas. The `isOpen` prop, which hides
  the whole dialog, is not modelled.
- `ProgressDots.Dots` takes integer props. A fractional or NaN
  `totalDots`/`filledDots` (JavaScript numbers) is not modelled.
- `IsWhitespace` follows the current ECMAScript WhiteSpace and
  LineTerminator sets. It does not track later changes to Unicode's
  Space_Separator category.
- Bar-chart heights are not modelled. They are floating-point
  percentages.
  - The progress-detail modal divides each value by the series maximum and
    sets a CSS minimum height of 8px
    (src/components/ui/progress-detail-modal.tsx:122-134). An empty series
    would give `Math.max()` = -Infinity.
  - The Insights page divides the cravings and mood values by the constant
    10, with no minimum height (src/pages/Insights.tsx:127 and 150).
- The static lookups (the stat-detail and progress-detail metric tables,
  the Insights, More and achievement-card content) are not modelled. They
  only return constants.
- The header's text "N of M Earned" and "N members online" are modelled as
  numbers, not as formatted strings.
