/**
 * The home page: a dark-mode toggle, the "Log Today's Use" button that
 * opens the log dialog, the flag recording that a log was saved, the
 * 2 x 2 metrics grid and the reduction-progress dots.
 */
module IndexPage {
  import opened Wrappers
  import LogModal
  import ProgressDots

  datatype PageFlags = PageFlags(isDark: bool, isLogModalOpen: bool, hasLoggedToday: bool)

  const InitialFlags := PageFlags(false, false, false)

  datatype PageEvent =
    | DarkModeToggled
    | LogButtonClicked
    | ModalClosed   // the dialog's `onClose`
    | LogSaved      // the dialog's `onSave`, whatever the entry

  function Next(s: PageFlags, e: PageEvent): (t: PageFlags)
    ensures e.DarkModeToggled? ==> t == s.(isDark := !s.isDark)
    ensures e.LogButtonClicked? ==> t == s.(isLogModalOpen := true)
    ensures e.ModalClosed? ==> t == s.(isLogModalOpen := false)
    ensures e.LogSaved? ==> t == s.(hasLoggedToday := true)
    ensures s.hasLoggedToday ==> t.hasLoggedToday
  {
    match e
    case DarkModeToggled => s.(isDark := !s.isDark)
    case LogButtonClicked => s.(isLogModalOpen := true)
    case ModalClosed => s.(isLogModalOpen := false)
    case LogSaved => s.(hasLoggedToday := true)
  }

  /** Toggling dark mode twice restores the original page. */
  lemma ToggleTwiceRestores(s: PageFlags)
    ensures Next(Next(s, DarkModeToggled), DarkModeToggled) == s
  {
  }

  function Run(s: PageFlags, es: seq<PageEvent>): PageFlags
    decreases |es|
  {
    if es == [] then s else Run(Next(s, es[0]), es[1..])
  }

  /** Nothing sets `hasLoggedToday` back to false; any saved log sets it. */
  lemma {:induction false} LoggedTodayIsPermanent(s: PageFlags, es: seq<PageEvent>)
    ensures s.hasLoggedToday ==> Run(s, es).hasLoggedToday
    ensures (exists k :: 0 <= k < |es| && es[k].LogSaved?) ==> Run(s, es).hasLoggedToday
    decreases |es|
  {
    if es != [] {
      LoggedTodayIsPermanent(Next(s, es[0]), es[1..]);
      assert forall k :: 1 <= k < |es| ==> es[k] == es[1..][k - 1];
    }
  }

  /** The log button's caption. */
  function LogButtonLabel(hasLoggedToday: bool): (caption: string)
    ensures caption == "Update Today's Use" <==> hasLoggedToday
    ensures caption == "Log Today's Use" <==> !hasLoggedToday
  {
    if hasLoggedToday then "Update Today's Use" else "Log Today's Use"
  }

  datatype Metric = Metric(caption: string, value: string)

  const ProgressMetrics: seq<Metric> := [
    Metric("Days to 0mg", "17 days left"),
    Metric("Units Avoided", "12 cigarettes / 8 vapes"),
    Metric("Money Saved", "$32.50"),
    Metric("Time Saved", "3 hrs 45 mins")
  ]

  /** A grid cell has a right border exactly when a cell follows it in its row. */
  function HasRightBorder(index: nat): (border: bool)
    ensures index < |ProgressMetrics| ==>
              (border <==> index + 1 < |ProgressMetrics| && (index + 1) / 2 == index / 2)
  {
    var isRightColumn := index % 2 == 1;
    !isRightColumn
  }

  /** A grid cell has a bottom border exactly when a cell sits below it. */
  function HasBottomBorder(index: nat): (border: bool)
    ensures index < |ProgressMetrics| ==> (border <==> index + 2 < |ProgressMetrics|)
  {
    var isBottomRow := index >= 2;
    !isBottomRow
  }

  /** The "Reduction Progress" row: five of seven dots filled, from the left. */
  function ReductionProgress(): (dots: seq<bool>)
    ensures |dots| == 7 && ProgressDots.CountFilled(dots) == 5
    ensures forall i :: 0 <= i < 7 ==> (dots[i] <==> i < 5)
  {
    ProgressDots.CountFilledDots(7, 5);
    ProgressDots.Dots(7, 5)
  }

  class Index {
    var isDark: bool
    var isLogModalOpen: bool
    var hasLoggedToday: bool
    /** The dialog is always mounted; `isOpen` only hides it. */
    const logModal: LogModal.LogTodayModal

    function Flags(): PageFlags
      reads this
    {
      PageFlags(isDark, isLogModalOpen, hasLoggedToday)
    }

    constructor ()
      ensures Flags() == InitialFlags
      ensures fresh(logModal) && logModal.State() == LogModal.InitialForm
    {
      isDark, isLogModalOpen, hasLoggedToday := false, false, false;
      logModal := new LogModal.LogTodayModal();
    }

    method ToggleDarkMode()
      modifies this
      ensures Flags() == Next(old(Flags()), DarkModeToggled)
    {
      isDark := !isDark;
    }

    method ClickLogButton()
      modifies this
      ensures Flags() == Next(old(Flags()), LogButtonClicked)
    {
      isLogModalOpen := true;
    }

    /** The dialog's `onClose`: also what its Cancel and close buttons call. */
    method CloseLogModal()
      modifies this
      ensures Flags() == Next(old(Flags()), ModalClosed)
    {
      isLogModalOpen := false;
    }

    /** `handleLogSave`: the entry itself is only logged to the console. */
    method HandleLogSave(data: LogModal.LogData)
      modifies this
      ensures Flags() == Next(old(Flags()), LogSaved)
    {
      hasLoggedToday := true;
    }

    /** The dialog's Save button, wired to `handleLogSave`. */
    method SaveLog() returns (entry: Option<LogModal.LogData>)
      modifies this, logModal
      ensures entry == LogModal.Emitted(old(logModal.State()), LogModal.SaveClicked)
      ensures logModal.State() == LogModal.Next(old(logModal.State()), LogModal.SaveClicked)
      ensures Flags() == if entry.Some? then Next(old(Flags()), LogSaved) else old(Flags())
    {
      entry := logModal.HandleSave();
      if entry.Some? {
        HandleLogSave(entry.value);
      }
    }

    /** The dialog's save timer fires: its fields reset, then `onClose` runs. */
    method FinishLogSave()
      modifies this, logModal
      ensures logModal.State() == LogModal.InitialForm
      ensures Flags() == Next(old(Flags()), ModalClosed)
    {
      logModal.CompleteSave();
      CloseLogModal();
    }
  }
}
