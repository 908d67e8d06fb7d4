/** The interval validator: a new start must be strictly before the current
    end, a new end strictly after the current start. Both sides are parsed
    with `h:mm a`, which places them on the same day.

    A picker that settles outside the table passes `undefined` on as the
    picked time; a draft time is therefore an `Option<Slot>`, None standing
    for `undefined`. */
module Validation {
  import opened Wrappers
  import opened TimeSlots

  /** Which picker produced a change: `'start'`, or anything else (the end). */
  datatype Role = Start | End

  /** The text `moment` parses: a slot's label, or `"undefined"`, which is
      what `undefined` becomes as a string. */
  function TimeText(t: Option<Slot>): string {
    match t
    case Some(i) => Label(i)
    case None => "undefined"
  }

  /** `moment(t, 'h:mm a')`: the slot's time of day, or None for an invalid
      moment. */
  function Moment(t: Option<Slot>): (r: Option<TimeOfDay>)
    ensures r.Some? <==> t.Some?
  {
    match t
    case Some(i) => Some(Minutes(i))
    case None => None
  }

  /** `Moment` is what parsing the time's text yields: a label parses to its
      minutes, and `"undefined"` does not parse at all. */
  lemma MomentIsParse(t: Option<Slot>)
    ensures ParseTime(TimeText(t)) == Moment(t)
  {
  }

  /** `isSameOrAfter`: false whenever either moment is invalid. */
  predicate SameOrAfter(a: Option<TimeOfDay>, b: Option<TimeOfDay>) {
    a.Some? && b.Some? && a.value >= b.value
  }

  /** `isSameOrBefore`: false whenever either moment is invalid. */
  predicate SameOrBefore(a: Option<TimeOfDay>, b: Option<TimeOfDay>) {
    a.Some? && b.Some? && a.value <= b.value
  }

  /** The error flag for a newly picked time, against the other role's
      current value: same-or-after the end for a start, same-or-before the
      start for an end. */
  function ValidateTimes(newTime: Option<Slot>, role: Role, startTime: Option<Slot>, endTime: Option<Slot>): (isError: bool)
    ensures role == Start ==> (isError <==> newTime.Some? && endTime.Some? && newTime.value >= endTime.value)
    ensures role == End ==> (isError <==> newTime.Some? && startTime.Some? && newTime.value <= startTime.value)
  {
    if role == Start then SameOrAfter(Moment(newTime), Moment(endTime))
    else SameOrBefore(Moment(newTime), Moment(startTime))
  }

  /** The draft `start`..`end` is in conflict: both are times and the start
      is not before the end. */
  predicate Conflicting(start: Option<Slot>, end: Option<Slot>) {
    SameOrAfter(Moment(start), Moment(end))
  }

  /** Table slot `a` is strictly before table slot `b`. */
  predicate Precedes(a: Slot, b: Slot) {
    Minutes(a) < Minutes(b)
  }

  /** For two table times, no conflict means the start precedes the end. */
  lemma NoConflictIsOrder(a: Slot, b: Slot)
    ensures !Conflicting(Some(a), Some(b)) <==> Precedes(a, b)
  {
  }

  /** Equal times are always an error, whichever picker moved. */
  lemma EqualTimesInvalid(a: Slot, other: Option<Slot>)
    ensures ValidateTimes(Some(a), Start, other, Some(a))
    ensures ValidateTimes(Some(a), End, Some(a), other)
  {
  }

  /** An ordered pair is never an error, whichever picker moved. */
  lemma OrderedTimesValid(a: Slot, b: Slot, other: Option<Slot>)
    requires Precedes(a, b)
    ensures !ValidateTimes(Some(a), Start, other, Some(b))
    ensures !ValidateTimes(Some(b), End, Some(a), other)
  {
  }

  /** `undefined` on either side is never an error. */
  lemma UndefinedNeverInvalid(t: Option<Slot>, other: Option<Slot>)
    ensures !ValidateTimes(None, Start, other, t) && !ValidateTimes(t, Start, other, None)
    ensures !ValidateTimes(None, End, t, other) && !ValidateTimes(t, End, None, other)
  {
  }

  /** The flag is exactly "the interval after the change is in conflict". */
  lemma ValidateMeansConflict(newTime: Option<Slot>, role: Role, startTime: Option<Slot>, endTime: Option<Slot>)
    ensures ValidateTimes(newTime, role, startTime, endTime) <==>
            if role == Start then Conflicting(newTime, endTime) else Conflicting(startTime, newTime)
  {
  }
}
