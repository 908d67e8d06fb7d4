# Availability screen — a Dafny model

A model of the logic of the availability screen of a small React Native app
(`src/screens/AvailabilityScreen.js`). The user taps a calendar day, drags two
horizontal time pickers (start and end) over a table of 96 quarter-hour
labels, and presses "Set time" to store the interval for that day. The
calendar then highlights saved days and today.

The model has six modules, one per concern of the screen:

- `TimeSlots` (`time_slots.dfy`): the table of 96 `h:mm a` labels. `FormatTime`
  renders minutes after midnight as `h:mm a`. `ParseTime` is the `h:mm a`
  parse the validator applies. The two are proved mutually inverse. A slot is a
  table position `0..95`, and `Label(i)` is the rendering of `i*15` minutes.
  `GenerateTimeSlots` builds the table with the source's push loop, and
  `FindIndex` is the `findIndex` lookup.
- `Picker` (`picker.dfy`): the scroll-offset arithmetic of the time picker,
  as written. Offsets are in half pixels (`2*x`), so that `(width - 430) / 2`
  is an integer. `Math.round(q)` is `floor(q + 1/2)`, which is Dafny's `/` on
  a positive divisor. The window width is an integer parameter.
- `Validation` (`validation.dfy`): `validateTimes`, comparing the new time with
  the other picker's current value. A draft time is an `Option<Slot>`: `None`
  stands for the `undefined` that a picker hands on when it settles outside
  the table. `moment(undefined, 'h:mm a')` is an invalid moment, and every
  comparison with an invalid moment is false.
- `Screen` (`availability_screen.dfy`): the screen's `useState` cells as the
  fields of a class. `onDayPress`, `closeModal`, `saveTimes` and `onTimeChange`
  are its methods, and `OnScroll` is the picker's settle handler feeding
  `onTimeChange`. `Valid()` is the invariant the handlers keep: the error flag
  is set exactly when the draft is in conflict (both times defined and the
  start not before the end), no saved interval is in conflict, and the modal
  is open only for a selected date.
- `Marking` (`marked_dates.dfy`): the `markedDates` object handed to the
  calendar, built by a loop over the saved keys.
- `PickerLayout` (`picker_layout.dfy`): where the padded scroll content
  actually places the slots inside the modal's 20-pixel padding. It holds the
  finding below.

`Walkthrough` (`walkthrough.dfy`) is a client. It replays interaction
sequences against the handlers' contracts alone: open an empty day, get an
error, fix it, save, see the marking, reopen, discard. A second sequence
settles a 320-pixel picker at offset 0 and saves an interval whose start is
`undefined`. A third checks, from the contracts alone, that `findIndex` of
each generated label is its own slot and that the scroll effect for a draft
time targets that slot's offset (position -1's offset for `undefined`).

Three places where the code does not do what the screen evidently intends; the model follows the code:

- The code does not clamp the rounded scroll position to `[0, 95]`.
  `timeSlots[index]` is then `undefined`, and `findIndex` can return -1.
  `SlotAtOffset` returns `None` in those cases, and `ScrollTarget` scrolls to
  position -1's offset.
- The centring term is `(width - 430) / 2`. With the content padding of line 46
  inside the modal's 20-pixel padding (line 294), the term that centres a slot
  is `-20` (target `80*i + 20`), and the two agree only at width 390.
- Because of the two points above, `undefined` can reach the draft. It never
  raises the error flag, so "Set time" stays enabled and an interval with an
  `undefined` side can be saved. "Every saved interval is ordered" holds only
  for intervals whose two sides are table times.

## Model

| member | source | states |
|---|---|---|
| `TimeSlots.Hour12` | src/screens/AvailabilityScreen.js:15 | the displayed hour is in 1..12 and agrees with the 24-hour hour modulo 12 (12 for midnight and noon) |
| `TimeSlots.FormatTime` | src/screens/AvailabilityScreen.js:15 | the `h:mm a` rendering of a time of day is 7 or 8 characters long |
| `TimeSlots.ParseTime` | src/screens/AvailabilityScreen.js:115-117 | an accepted `h:mm a` string denotes a time of day, 0..1439 minutes after midnight |
| `TimeSlots.FormatParse` | src/screens/AvailabilityScreen.js:15 | parsing the `h:mm a` rendering of any time of day with `h:mm a` gives that time back |
| `TimeSlots.ParseFormat` | src/screens/AvailabilityScreen.js:115-117 | every string the `h:mm a` parse accepts denotes a time of day whose rendering is that string |
| `TimeSlots.ParseIffFormat` | src/screens/AvailabilityScreen.js:115-117 | a string parses to `m` if and only if `m` is a time of day and the string is its rendering |
| `TimeSlots.Label` | src/screens/AvailabilityScreen.js:13-15 | parsing slot `i`'s label with `h:mm a` yields `i*15` minutes, so comparing parsed labels is comparing slots |
| `TimeSlots.LabelFields` | src/screens/AvailabilityScreen.js:13-15 | slot `i` shows hour `i/4` in 12-hour form (`12` when `i/4 % 12 == 0`), minute `(i%4)*15` as two digits, and `am` below hour 12, `pm` from it |
| `TimeSlots.LabelInjective` | src/screens/AvailabilityScreen.js:11-18 | two slots have the same label exactly when they are the same slot |
| `TimeSlots.LabelsAreQuarterHours` | src/screens/AvailabilityScreen.js:11-18 | a string is a table label exactly when it parses to a multiple of 15 minutes |
| `TimeSlots.NamedLabels` | src/screens/AvailabilityScreen.js:13-15 | slots 0, 24, 32, 48 and 95 are `12:00 am`, `6:00 am`, `8:00 am`, `12:00 pm` and `11:45 pm` |
| `TimeSlots.GenerateTimeSlots` | src/screens/AvailabilityScreen.js:11-18 | the table has 96 entries; entry `i` is slot `i`'s label and parses to `i*15` minutes; the entries are pairwise distinct |
| `TimeSlots.FindIndex` | src/screens/AvailabilityScreen.js:26 | the result is the first position holding the label, or -1 exactly when the label is absent |
| `TimeSlots.TableIndexOfLabel` | src/screens/AvailabilityScreen.js:20-26 | in the generated table, no position before `i` holds slot `i`'s label, so `findIndex` of `timeSlots[i]` is `i` |
| `Picker.OffsetForIndex` | src/screens/AvailabilityScreen.js:28 | rounding the offset `scrollTo` is given for any position, as the settle handler does, recovers that position, for every window width |
| `Picker.IndexForOffset` | src/screens/AvailabilityScreen.js:33 | the rounded position is the one whose scroll target lies within half a slot of the settled offset, ties going to the later position, as `Math.round` does |
| `Picker.SlotAtOffset` | src/screens/AvailabilityScreen.js:33-34 | the lookup yields a slot exactly when the rounded position is inside the table, with no clamping, and that slot is the rounded position |
| `Picker.PickerRoundTrip` | src/screens/AvailabilityScreen.js:28-34 | scrolling to slot `i` and settling there selects slot `i` again, for every width |
| `Picker.SlotAtOffsetIff` | src/screens/AvailabilityScreen.js:33-34 | an offset selects slot `i` if and only if it lies within half a slot of slot `i`'s scroll target |
| `Picker.ScrollTarget` | src/screens/AvailabilityScreen.js:25-30 | the offset is that of some position (`index*80 - (width-430)/2`); for a label in the table that position holds the label and no earlier one does; for a label not in the table it is position -1 |
| `Validation.Moment` | src/screens/AvailabilityScreen.js:115-117 | the moment is valid exactly when the time is a table label, not `undefined` |
| `Validation.MomentIsParse` | src/screens/AvailabilityScreen.js:115-117 | the moment is the `h:mm a` parse of the time's text: a label's minutes, and nothing for `"undefined"` |
| `Validation.ValidateTimes` | src/screens/AvailabilityScreen.js:114-123 | for the start picker the flag is "both defined and new time same or after the end"; for the end picker "both defined and new time same or before the start" |
| `Validation.NoConflictIsOrder` | src/screens/AvailabilityScreen.js:114-123 | for two table times, the pair is free of conflict exactly when the start is strictly before the end |
| `Validation.EqualTimesInvalid` | src/screens/AvailabilityScreen.js:114-123 | moving either picker onto the other's time always sets the flag |
| `Validation.OrderedTimesValid` | src/screens/AvailabilityScreen.js:114-123 | when the start is before the end, neither picker's change to that pair sets the flag |
| `Validation.UndefinedNeverInvalid` | src/screens/AvailabilityScreen.js:114-123 | an `undefined` new time, or an `undefined` other side, never sets the flag |
| `Validation.ValidateMeansConflict` | src/screens/AvailabilityScreen.js:114-123 | the flag is set exactly when the interval after the change is in conflict |
| `Screen.DefaultsAreEntries` | src/screens/AvailabilityScreen.js:69-70 | the defaults `'6:00 am'` and `'8:00 am'` are the labels of slots 24 and 32 |
| `Screen.DefaultsOrdered` | src/screens/AvailabilityScreen.js:85-86 | the default start is before the default end, and the default pair is not in conflict |
| `Screen.DateKey` | src/screens/AvailabilityScreen.js:97-100 | a selected date is its own key; a `null` date is stored under the key `"null"` |
| `Screen.AvailabilityScreen.constructor` | src/screens/AvailabilityScreen.js:65-72 | the cells start as today's date, modal closed, no date selected, `6:00 am` to `8:00 am`, nothing saved, no error, satisfying the invariant |
| `Screen.AvailabilityScreen.OnDayPress` | src/screens/AvailabilityScreen.js:79-90 | selects the day, seeds the draft from its saved interval or else the defaults, clears the error, opens the modal, leaves the saved intervals alone, keeps the invariant |
| `Screen.AvailabilityScreen.CloseModal` | src/screens/AvailabilityScreen.js:92-94 | closes the modal and changes nothing else, the saved intervals included |
| `Screen.AvailabilityScreen.SaveTimes` | src/screens/AvailabilityScreen.js:96-102 | enabled only while there is no error (line 227); stores the draft at the selected date's key, keeps every other key and its value, closes the modal; from the open modal the key is the selected date; a stored pair of table times is ordered |
| `Screen.AvailabilityScreen.OnTimeChange` | src/screens/AvailabilityScreen.js:104-112 | the start picker changes only the start, the other only the end; the flag is the validator's verdict on the pre-call values and equals "the draft is in conflict" afterwards |
| `Screen.AvailabilityScreen.OnScroll` | src/screens/AvailabilityScreen.js:32-35 | the settled picker's time becomes the slot under the offset, or `undefined` out of range; the other time is kept and the invariant holds |
| `Marking.MarkedDates` | src/screens/AvailabilityScreen.js:125-134 | the marked keys are exactly the saved dates plus today; saved dates are green with black text; today, when not saved, is red with white text |
| `PickerLayout.CentredOffsetForIndex` | src/screens/AvailabilityScreen.js:45-47 | the offset that centres slot `i` (`80*i + 20` pixels) is selected as slot `i` by the centred rounding |
| `PickerLayout.CentredIndex` | src/screens/AvailabilityScreen.js:45-47 | with the content padded by `(width - 80) / 2` inside the modal's 20-pixel padding, the slot under the viewport centre is the one whose centring offset lies within half a slot |
| `PickerLayout.CentredSlotAtOffset` | src/screens/AvailabilityScreen.js:33-34 | the centred lookup yields a slot exactly when the centred position is inside the table |
| `PickerLayout.NarrowWindowStartLeavesTable` | src/screens/AvailabilityScreen.js:33-34 | at width 320 and offset 0, where slot 0 is centred, the code computes position -1 and looks up `undefined` |
| `PickerLayout.WideWindowEndLeavesTable` | src/screens/AvailabilityScreen.js:33-34 | at width 768 and the last offset (7640 px), where slot 95 is centred, the code computes position 98 and looks up `undefined` |
| `PickerLayout.SnapOffsetsAsWritten` | src/screens/AvailabilityScreen.js:33-42 | at the snap offset `80*k`, where slot `k` is under the centre, the code selects `k + (width - 350) / 160` (floored), which is `k` only for widths 350..509 |
| `PickerLayout.RangeEndsAsWritten` | src/screens/AvailabilityScreen.js:33-47 | the code selects a table slot at both ends of the scroll range exactly for widths 350..429; the centred lookup does for every width |
| `PickerLayout.CentredStaysInTable` | src/screens/AvailabilityScreen.js:42-47 | with the centred mapping, every offset in the scroll range 0..7640 px selects a table slot, the one under the centre |
| `PickerLayout.CentredRoundTrip` | src/screens/AvailabilityScreen.js:28-34 | with the centred mapping, every slot's target offset is in the scroll range and selects that slot again |
| `PickerLayout.AgreesAtWidth390` | src/screens/AvailabilityScreen.js:28-33 | at width 390 the code's two formulas coincide with the centred ones at every offset and position |

## Findings

| source | as written | input that shows it | evidently intended | confidence | as-written member | corrected member |
|---|---|---|---|---|---|---|
| src/screens/AvailabilityScreen.js:28-34 | the offset and the rounding use the term `(width - 430) / 2`, while the layout (padding `(width - 80) / 2` at line 46 inside the modal's 20-pixel padding at line 294) centres slot `i` at offset `80*i + 20` for every width; the rounded position is not clamped | width 320, settled offset 0 (slot 0 centred): `Math.round(-55/80) == -1`, so `timeSlots[-1]` is `undefined`, `onTimeChange` stores it, the flag stays clear and "Set time" can save `{start: undefined}`; width 768, last offset 7640 px: position 98 | the slot under the viewport centre is selected, i.e. scroll target `80*i + 20` and position `round((offset - 20)/80)`, which the code matches only at width 390; every offset of the scroll range then selects a table slot | medium, not executed | `PickerLayout.NarrowWindowStartLeavesTable` | `PickerLayout.CentredStaysInTable` |

The handlers in `Screen` are proved for any time the picker hands on, table
slot or `undefined`. `Picker` and `Screen.AvailabilityScreen.OnScroll` keep
the code's mapping because they model the code. `PickerLayout` holds the
centred mapping with its properties.

## Left out

- Rendering, styles and theme objects (lines 37-61, 136-235, 237-390): presentation only. Only the slot width (80), the content padding and the modal padding are used, by `PickerLayout`.
- The calendar, modal, scroll view and button components: only what they are given (offsets, the marking map) and what they call (the handlers) is modelled. The animated `scrollTo` itself is not modelled, only its target offset. Momentum and snapping are not modelled: any settled offset is allowed.
- `HapticFeedback.trigger` (line 105): a fire-and-forget native call with no effect on state.
- `moment.tz.guess` and the `timezone` cell (lines 66, 74-77) and the modal title (line 199): display only.
- `currentDate` (line 65) is a constructor parameter instead of `moment().format('YYYY-MM-DD')`, because the clock is outside the model.
- `Dimensions.get('window')` (line 9): the width is an integer parameter, and offsets are whole half pixels. Floating-point pixel arithmetic is not modelled.
- Locale and daylight-saving behaviour of `moment().startOf('day').add(...)` (line 15) and of the `moment(..., 'h:mm a')` parses (lines 115-117): the table and the parse are pure minute arithmetic. On a day when clocks spring forward, moment moves a parsed time that falls in the skipped hour (for example `2:30 am` becomes 3:30), so the validator can flag an ordered pair such as `2:30 am` / `3:00 am`; the model does not capture this.
- TimeSlots.ParseTime: accepts exactly the `h:mm a` renderings. `moment`'s parser is more lenient (for example upper-case `AM`, leading zeros). The screen only ever parses table labels and the text `"undefined"`. Outside the daylight-saving gap above, the two agree on those: a label gives its time, and `"undefined"` matches none of the format's tokens, which makes the moment invalid.
- React's asynchronous, batched `setState`: each handler is one synchronous transition from the values it was rendered with.
- Object-prototype keys: `savedTimes[day]` is read as map membership. Date keys are `YYYY-MM-DD` strings, so inherited properties such as `constructor` never collide.
- The scroll-to effect's trigger (line 30, a change of `selectedTime`): `ScrollTarget` computes the offset for a given time, and when React runs it is not modelled.
- `src/App.js`: navigation scaffolding with no logic.
