/**
  The customisation dialog (frontend/components/CustomizeModal.tsx): one
  general text and one text per itinerary day, edited until they are handed
  to the page, after which the dialog starts over. Given earlier feedback it
  shows that, read-only, instead of what is being edited.

  The page keeps the dialog mounted for its whole life and changes its
  props (frontend/app/page.tsx:35, 135-140, 186). The day entries are seeded
  from the `itinerary` prop only at mount and at each save, so a new prop
  does not reach them: `PropsChanged` models that, and
  `FirstCustomizeHandsNoDays` and `OneDialogBehind` state what follows.
  `PropsChangedReseeded` is the dialog that re-seeds on a new itinerary.
*/
module CustomizeModal {
  import opened Wrappers
  import opened Types
  import Text
  import Concierge

  /** One empty entry per itinerary day, in itinerary order. */
  function EmptyFeedback(itinerary: seq<ItineraryDay>): (r: seq<DayFeedback>)
    ensures |r| == |itinerary|
    ensures forall i :: 0 <= i < |r| ==> r[i].day == itinerary[i].day && r[i].feedback == ""
  {
    seq(|itinerary|, i requires 0 <= i < |itinerary| => DayFeedback(itinerary[i].day, ""))
  }

  /** `prev.map(item => item.day === day ? { ...item, feedback } : item)`. */
  function UpdateDay(entries: seq<DayFeedback>, day: int, text: string): (r: seq<DayFeedback>)
    ensures |r| == |entries|
  {
    seq(|entries|, i requires 0 <= i < |entries| =>
      if entries[i].day == day then entries[i].(feedback := text) else entries[i])
  }

  /** Editing a day rewrites exactly the entries of that day; days and order stay, every other entry is kept. */
  lemma UpdateDayEffect(entries: seq<DayFeedback>, day: int, text: string)
    ensures var r := UpdateDay(entries, day, text);
      && |r| == |entries|
      && (forall i :: 0 <= i < |r| ==> r[i].day == entries[i].day)
      && (forall i :: 0 <= i < |r| && entries[i].day == day ==> r[i].feedback == text)
      && (forall i :: 0 <= i < |r| && entries[i].day != day ==> r[i] == entries[i])
  {
  }

  /** The last edit of a day is the one that counts. */
  lemma UpdateDayLastWins(entries: seq<DayFeedback>, day: int, a: string, b: string)
    ensures UpdateDay(UpdateDay(entries, day, a), day, b) == UpdateDay(entries, day, b)
  {
  }

  /** Edits of two different days do not interfere. */
  lemma UpdateDaysCommute(entries: seq<DayFeedback>, d1: int, a: string, d2: int, b: string)
    requires d1 != d2
    ensures UpdateDay(UpdateDay(entries, d1, a), d2, b) == UpdateDay(UpdateDay(entries, d2, b), d1, a)
  {
  }

  /** A day the itinerary does not have cannot be edited: nothing changes. */
  lemma UpdateUnknownDay(entries: seq<DayFeedback>, day: int, text: string)
    requires forall i :: 0 <= i < |entries| ==> entries[i].day != day
    ensures UpdateDay(entries, day, text) == entries
  {
  }

  /**
    Handing over an untouched form gives the page no day feedback to pass
    on: its customisation prompt holds the general text and no day clause.
  */
  lemma UntouchedFormPrompt(itinerary: seq<ItineraryDay>, general: string)
    ensures Concierge.FeedbackPrompt(CustomizationFeedback(general, EmptyFeedback(itinerary)))
            == "My overall feedback is: \"" + general + "\". For specific days: ."
  {
    var f := CustomizationFeedback(general, EmptyFeedback(itinerary));
    forall d | d in f.dailyFeedback
      ensures Text.AllSpace(d.feedback)
    {
    }
    Concierge.FeedbackPromptAllBlank(f);
  }

  const EditTitle := "Customize Your Itinerary"
  const ReadOnlyTitle := "Customization Details"

  /** `readOnlyFeedback || { generalFeedback: '', dailyFeedback: [] }`. */
  function FeedbackToDisplay(readOnly: Option<CustomizationFeedback>): CustomizationFeedback {
    readOnly.GetOr(CustomizationFeedback("", []))
  }

  /** What the dialog shows: the read-only feedback when given, else the values being edited. */
  function Shown(readOnly: Option<CustomizationFeedback>, general: string, daily: seq<DayFeedback>): (f: CustomizationFeedback)
    ensures readOnly.Some? ==> f == readOnly.value
    ensures readOnly.None? ==> f == CustomizationFeedback(general, daily)
  {
    if readOnly.Some? then FeedbackToDisplay(readOnly) else CustomizationFeedback(general, daily)
  }

  /** In read-only mode the edit state has no influence on what is shown. */
  lemma ReadOnlyIgnoresEdits(readOnly: Option<CustomizationFeedback>, g1: string, d1: seq<DayFeedback>,
                             g2: string, d2: seq<DayFeedback>)
    requires readOnly.Some?
    ensures Shown(readOnly, g1, d1) == Shown(readOnly, g2, d2) == readOnly.value
  {
  }

  /** The dialog's props and state. */
  datatype Dialog = Dialog(
    itinerary: seq<ItineraryDay>,
    readOnlyFeedback: Option<CustomizationFeedback>,   // the feedback to show read-only, when viewing an earlier request
    generalFeedback: string,
    dailyFeedback: seq<DayFeedback>,
    closeRequested: bool)                              // whether `onClose` has been called

  /** The entries are one per day of the current itinerary, in its order. */
  predicate EntriesMatchDays(d: Dialog) {
    && |d.dailyFeedback| == |d.itinerary|
    && forall i :: 0 <= i < |d.dailyFeedback| ==> d.dailyFeedback[i].day == d.itinerary[i].day
  }

  /** Mounting: empty general text and one empty entry per day of the mount-time itinerary. */
  function Mount(itinerary: seq<ItineraryDay>, readOnlyFeedback: Option<CustomizationFeedback>): Dialog {
    Dialog(itinerary, readOnlyFeedback, "", EmptyFeedback(itinerary), false)
  }

  /** The page passes new props to the mounted dialog; the state hooks keep their values. */
  function PropsChanged(d: Dialog, itinerary: seq<ItineraryDay>, readOnlyFeedback: Option<CustomizationFeedback>): Dialog {
    d.(itinerary := itinerary, readOnlyFeedback := readOnlyFeedback)
  }

  function EditDay(d: Dialog, day: int, text: string): Dialog {
    d.(dailyFeedback := UpdateDay(d.dailyFeedback, day, text))
  }

  /** What handleSave hands to `onSave`. */
  function Handed(d: Dialog): CustomizationFeedback {
    CustomizationFeedback(d.generalFeedback, d.dailyFeedback)
  }

  /** handleSave after `onSave`: ask to close and reseed from the itinerary prop current at save time. */
  function AfterSave(d: Dialog): Dialog {
    d.(closeRequested := true, generalFeedback := "", dailyFeedback := EmptyFeedback(d.itinerary))
  }

  function Title(d: Dialog): string {
    if d.readOnlyFeedback.Some? then ReadOnlyTitle else EditTitle
  }

  function Display(d: Dialog): CustomizationFeedback {
    Shown(d.readOnlyFeedback, d.generalFeedback, d.dailyFeedback)
  }

  /** Mounting, editing and saving give entries that match the current days. */
  lemma EntriesMatchDaysKept(d: Dialog, itinerary: seq<ItineraryDay>, ro: Option<CustomizationFeedback>, day: int, text: string)
    ensures EntriesMatchDays(Mount(itinerary, ro))
    ensures EntriesMatchDays(AfterSave(d))
    ensures EntriesMatchDays(d) ==> EntriesMatchDays(EditDay(d, day, text))
  {
  }

  /**
    The page mounts the dialog with `[]` (page.tsx:35) and opening it on an
    itinerary only changes the prop (page.tsx:136). The first edit dialog
    therefore shows no day field, an edit of any day changes nothing, and
    saving hands over no day feedback, whatever the itinerary.
  */
  lemma FirstCustomizeHandsNoDays(itinerary: seq<ItineraryDay>, day: int, text: string, general: string)
    requires |itinerary| > 0
    ensures var d := PropsChanged(Mount([], None), itinerary, None);
      && Display(d).dailyFeedback == []
      && !EntriesMatchDays(d)
      && Handed(EditDay(d.(generalFeedback := general), day, text)) == CustomizationFeedback(general, [])
  {
  }

  /**
    After a save the entries are those of the itinerary of that save, so a
    dialog opened next on another itinerary shows and hands over the days
    of the previous one.
  */
  lemma OneDialogBehind(d: Dialog, next: seq<ItineraryDay>)
    ensures var d2 := PropsChanged(AfterSave(d), next, None);
      && Display(d2).dailyFeedback == EmptyFeedback(d.itinerary)
      && Handed(d2).dailyFeedback == EmptyFeedback(d.itinerary)
      && (EntriesMatchDays(d2) <==> |d.itinerary| == |next| && forall i :: 0 <= i < |next| ==> d.itinerary[i].day == next[i].day)
  {
  }

  /** The dialog as evidently intended: a new itinerary prop re-seeds the day entries. */
  function PropsChangedReseeded(d: Dialog, itinerary: seq<ItineraryDay>, readOnlyFeedback: Option<CustomizationFeedback>): Dialog {
    if itinerary == d.itinerary then d.(readOnlyFeedback := readOnlyFeedback)
    else d.(itinerary := itinerary, readOnlyFeedback := readOnlyFeedback, dailyFeedback := EmptyFeedback(itinerary))
  }

  /**
    With re-seeding the entries always match the current days, so an edit
    dialog opened on an itinerary shows one field per day and an untouched
    save hands over one empty entry per day.
  */
  lemma ReseededMatchesDays(d: Dialog, itinerary: seq<ItineraryDay>, ro: Option<CustomizationFeedback>)
    requires EntriesMatchDays(d)
    ensures EntriesMatchDays(PropsChangedReseeded(d, itinerary, ro))
    ensures var d2 := PropsChangedReseeded(AfterSave(d), itinerary, None);
      && Display(d2).dailyFeedback == EmptyFeedback(itinerary)
      && Handed(d2) == CustomizationFeedback("", EmptyFeedback(itinerary))
  {
  }

  class CustomizeDialog {
    var itinerary: seq<ItineraryDay>
    var readOnlyFeedback: Option<CustomizationFeedback>
    var generalFeedback: string
    var dailyFeedback: seq<DayFeedback>
    var closeRequested: bool

    function Snapshot(): Dialog
      reads this
    {
      Dialog(itinerary, readOnlyFeedback, generalFeedback, dailyFeedback, closeRequested)
    }

    constructor (itinerary: seq<ItineraryDay>, readOnlyFeedback: Option<CustomizationFeedback>)
      ensures Snapshot() == Mount(itinerary, readOnlyFeedback)
    {
      this.itinerary := itinerary;
      this.readOnlyFeedback := readOnlyFeedback;
      generalFeedback := "";
      dailyFeedback := EmptyFeedback(itinerary);
      closeRequested := false;
    }

    /** A re-render of the page with new props. */
    method OnProps(newItinerary: seq<ItineraryDay>, newReadOnlyFeedback: Option<CustomizationFeedback>)
      modifies this`itinerary, this`readOnlyFeedback
      ensures Snapshot() == PropsChanged(old(Snapshot()), newItinerary, newReadOnlyFeedback)
    {
      itinerary := newItinerary;
      readOnlyFeedback := newReadOnlyFeedback;
    }

    /** The general textarea's onChange; the textarea is read-only when feedback is given for viewing. */
    method SetGeneralFeedback(text: string)
      requires readOnlyFeedback.None?
      modifies this`generalFeedback
      ensures Snapshot() == old(Snapshot()).(generalFeedback := text)
    {
      generalFeedback := text;
    }

    /** A day textarea's onChange; like the general one, it is read-only when feedback is given for viewing. */
    method HandleDailyFeedbackChange(day: int, text: string)
      requires readOnlyFeedback.None?
      modifies this`dailyFeedback
      ensures Snapshot() == EditDay(old(Snapshot()), day, text)
    {
      dailyFeedback := UpdateDay(dailyFeedback, day, text);
    }

    /** handleSave: hand over what was edited, ask to close, and start the form over. */
    method HandleSave() returns (handed: CustomizationFeedback)
      modifies this`generalFeedback, this`dailyFeedback, this`closeRequested
      ensures handed == Handed(old(Snapshot()))
      ensures Snapshot() == AfterSave(old(Snapshot()))
    {
      handed := CustomizationFeedback(generalFeedback, dailyFeedback);
      closeRequested := true;
      generalFeedback := "";
      dailyFeedback := EmptyFeedback(itinerary);
    }

    /** The dialog's close control, and the only button in read-only mode. */
    method HandleClose()
      modifies this`closeRequested
      ensures Snapshot() == old(Snapshot()).(closeRequested := true)
    {
      closeRequested := true;
    }
  }
}
