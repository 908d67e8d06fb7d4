/** The availability screen's state: the `useState` cells and the handlers
    that update them when a day is tapped, a picker settles, the modal is
    dismissed or "Set time" is pressed. Each handler is one synchronous
    transition computed from the values the handler was rendered with.

    The draft times are `Option<Slot>`: a picker that settles outside the
    table hands on `undefined` (None), and the cells store it. */
module Screen {
  import opened Wrappers
  import opened TimeSlots
  import opened Validation
  import opened Picker

  /** A saved `{start, end}` pair for one date. */
  datatype Interval = Interval(start: Option<Slot>, end: Option<Slot>)

  /** Slot of the default start `'6:00 am'`. */
  const DefaultStart: Slot := 24
  /** Slot of the default end `'8:00 am'`. */
  const DefaultEnd: Slot := 32

  /** The defaults are the table entries `'6:00 am'` and `'8:00 am'`. */
  lemma DefaultsAreEntries()
    ensures Label(DefaultStart) == "6:00 am" && Label(DefaultEnd) == "8:00 am"
  {
    NamedLabels();
  }

  /** The default start is before the default end, so a fresh draft is
      valid. */
  lemma DefaultsOrdered()
    ensures Precedes(DefaultStart, DefaultEnd)
    ensures !Conflicting(Some(DefaultStart), Some(DefaultEnd))
  {
  }

  /** The property key the object literal `{[selectedDate]: ...}` uses:
      JavaScript turns a `null` date into the key `"null"`. */
  function DateKey(d: Option<string>): (k: string)
    ensures d.Some? ==> k == d.value
    ensures d.None? ==> k == "null"
  {
    match d
    case None => "null"
    case Some(date) => date
  }

  /** No stored interval is in conflict: each is ordered, unless a side is
      `undefined`. */
  ghost predicate NoneConflicting(saved: map<string, Interval>) {
    forall d :: d in saved ==> !Conflicting(saved[d].start, saved[d].end)
  }

  class AvailabilityScreen {
    /** Today's `YYYY-MM-DD` key, fixed when the screen mounts. */
    const currentDate: string
    var isModalVisible: bool
    var selectedDate: Option<string>
    var startTime: Option<Slot>
    var endTime: Option<Slot>
    var savedTimes: map<string, Interval>
    var isError: bool

    /** The error flag tracks exactly whether the draft is in conflict, no
        saved interval is, and the modal is open only for a selected
        date. */
    ghost predicate Valid()
      reads this
    {
      (isError <==> Conflicting(startTime, endTime)) &&
      NoneConflicting(savedTimes) &&
      (isModalVisible ==> selectedDate.Some?)
    }

    /** The cells' initial values. */
    constructor (today: string)
      ensures Valid()
      ensures currentDate == today && !isModalVisible && selectedDate == None
      ensures startTime == Some(DefaultStart) && endTime == Some(DefaultEnd)
      ensures savedTimes == map[] && !isError
    {
      currentDate := today;
      isModalVisible := false;
      selectedDate := None;
      startTime := Some(DefaultStart);
      endTime := Some(DefaultEnd);
      savedTimes := map[];
      isError := false;
    }

    /** Tapping a calendar day: select it, seed the draft from its saved
        interval or from the defaults, clear the error, open the modal. */
    method OnDayPress(day: string)
      requires Valid()
      modifies this
      ensures Valid()
      ensures selectedDate == Some(day)
      ensures day in savedTimes ==> startTime == savedTimes[day].start && endTime == savedTimes[day].end
      ensures day !in savedTimes ==> startTime == Some(DefaultStart) && endTime == Some(DefaultEnd)
      ensures !isError && isModalVisible
      ensures savedTimes == old(savedTimes)
    {
      selectedDate := Some(day);
      if day in savedTimes {
        startTime := savedTimes[day].start;
        endTime := savedTimes[day].end;
      } else {
        startTime := Some(DefaultStart);
        endTime := Some(DefaultEnd);
      }
      isError := false;
      isModalVisible := true;
    }

    /** Dismissing the modal: it closes and nothing else changes; the draft
        is abandoned. */
    method CloseModal()
      requires Valid()
      modifies this`isModalVisible
      ensures Valid()
      ensures !isModalVisible
      ensures savedTimes == old(savedTimes)
    {
      isModalVisible := false;
    }

    /** "Set time": enabled only while there is no error. Writes the draft at
        the selected date, keeps every other date's entry, closes the
        modal. Pressed in the open modal, the key is the selected date,
        never `"null"`. */
    method SaveTimes()
      requires Valid()
      requires !isError
      modifies this`savedTimes, this`isModalVisible
      ensures Valid()
      ensures savedTimes == old(savedTimes)[DateKey(selectedDate) := Interval(startTime, endTime)]
      ensures forall d :: d != DateKey(selectedDate) ==>
                (d in savedTimes <==> d in old(savedTimes)) &&
                (d in savedTimes ==> savedTimes[d] == old(savedTimes)[d])
      ensures old(isModalVisible) ==> selectedDate.Some? && DateKey(selectedDate) == selectedDate.value
      ensures startTime.Some? && endTime.Some? ==> Precedes(startTime.value, endTime.value)
      ensures !isModalVisible
    {
      savedTimes := savedTimes[DateKey(selectedDate) := Interval(startTime, endTime)];
      isModalVisible := false;
    }

    /** A picker settled on `selectedTime`: the start picker replaces the
        start, any other the end; the error flag is recomputed against the
        other role's value as it was rendered. */
    method OnTimeChange(selectedTime: Option<Slot>, role: Role)
      requires Valid()
      modifies this`startTime, this`endTime, this`isError
      ensures Valid()
      ensures role == Start ==> startTime == selectedTime && endTime == old(endTime)
      ensures role == End ==> endTime == selectedTime && startTime == old(startTime)
      ensures isError == ValidateTimes(selectedTime, role, old(startTime), old(endTime))
      ensures isError <==> Conflicting(startTime, endTime)
    {
      var renderedStart, renderedEnd := startTime, endTime;
      if role == Start {
        startTime := selectedTime;
      } else {
        endTime := selectedTime;
      }
      isError := ValidateTimes(selectedTime, role, renderedStart, renderedEnd);
    }

    /** The picker's scroll-settle handler: the time under the settled
        offset (`timeSlots[index]`, possibly `undefined`) goes to
        `OnTimeChange`. */
    method OnScroll(offset2: int, width: int, role: Role)
      requires Valid()
      modifies this`startTime, this`endTime, this`isError
      ensures Valid()
      ensures role == Start ==> startTime == SlotAtOffset(offset2, width) && endTime == old(endTime)
      ensures role == End ==> endTime == SlotAtOffset(offset2, width) && startTime == old(startTime)
      ensures isError <==> Conflicting(startTime, endTime)
    {
      OnTimeChange(SlotAtOffset(offset2, width), role);
    }
  }
}
