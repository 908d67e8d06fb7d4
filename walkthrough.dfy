/** A client of the screen: the interaction sequences the screen is meant to
    support, and one it is not, checked against the handlers' contracts
    alone. */
module Walkthrough {
  import opened Wrappers
  import opened TimeSlots
  import opened Validation
  import opened Picker
  import opened Screen
  import opened Marking

  method Session(today: string, other: string, width: int)
    requires today != other
  {
    var screen := new AvailabilityScreen(today);

    // A day with nothing saved opens with the defaults and no error.
    screen.OnDayPress(today);
    assert screen.startTime == Some(DefaultStart) && screen.endTime == Some(DefaultEnd) && !screen.isError;
    var marks := MarkedDates(screen.savedTimes, screen.currentDate);
    assert marks[today] == NeedsAttention;

    // Settling the start picker on 9:00 am against the 8:00 am end is an
    // error; saving is disabled.
    PickerRoundTrip(36, width);
    screen.OnScroll(OffsetForIndex(36, width), width, Start);
    assert screen.startTime == Some(36) && screen.isError;

    // Back to 6:00 am: valid again, and saving stores the interval.
    screen.OnTimeChange(Some(24), Start);
    assert !screen.isError;
    screen.SaveTimes();
    assert screen.savedTimes == map[today := Interval(Some(24), Some(32))];
    marks := MarkedDates(screen.savedTimes, screen.currentDate);
    assert marks[today] == Confirmed && marks.Keys == {today};

    // Reopening a saved day seeds the draft from it; discarding keeps it.
    screen.OnDayPress(today);
    assert screen.startTime == Some(24) && screen.endTime == Some(32);
    screen.OnTimeChange(Some(40), End);
    screen.CloseModal();
    assert screen.savedTimes == map[today := Interval(Some(24), Some(32))];

    // Another day starts from the defaults again.
    screen.OnDayPress(other);
    assert screen.startTime == Some(DefaultStart) && screen.endTime == Some(DefaultEnd);
  }

  /** On a 320-pixel window, settling the start picker at the start of its
      range hands on `undefined`; no error is raised, and saving stores an
      interval without a start. */
  method NarrowWindowSavesUndefinedStart(today: string)
  {
    var screen := new AvailabilityScreen(today);
    screen.OnDayPress(today);
    assert SlotAtOffset(0, 320) == None;
    screen.OnScroll(0, 320, Start);
    assert screen.startTime == None && !screen.isError;
    screen.SaveTimes();
    assert screen.savedTimes[today] == Interval(None, Some(DefaultEnd));
  }

  /** The picker's two table lookups, composed as the screen uses them:
      `findIndex` of every generated label is its own slot, and the scroll
      effect for a draft time targets that slot's offset, or position -1's
      offset when the draft time is `undefined`. */
  method PickerLookups(i: Slot, width: int)
  {
    var times := GenerateTimeSlots();
    var k := FindIndex(times, times[i]);
    TableIndexOfLabel(times, i);
    assert k == i;

    var screen := new AvailabilityScreen("2024-01-01");
    screen.OnDayPress("2024-01-01");
    var offset2 := ScrollTarget(times, TimeText(screen.startTime), width);
    assert offset2 == OffsetForIndex(DefaultStart, width);

    screen.OnScroll(0, 320, Start);
    offset2 := ScrollTarget(times, TimeText(screen.startTime), 320);
    assert screen.startTime == None && offset2 == OffsetForIndex(-1, 320);
  }
}
