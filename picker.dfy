/** The horizontal time picker: the mapping between a slot and the scroll
    offset `scrollTo` is given for it, and back. That offset centres the
    slot in the viewport only for a 390-pixel window (see `PickerLayout`).

    Offsets are measured in half pixels, so that the centring term
    `(width - 430) / 2` is an integer: an offset `x` in pixels is `2 * x` here.
    Each slot is 80 pixels (160 half pixels) wide. */
module Picker {
  import opened Wrappers
  import opened TimeSlots

  /** Width of one slot, in half pixels. */
  const SlotWidth2: int := 160

  /** Twice the centring term `(width - 430) / 2` of the picker. */
  function Centring2(width: int): int {
    width - 430
  }

  /** The offset `scrollTo` is given for table position `index`:
      `index * 80 - (width - 430) / 2`, in half pixels. */
  function OffsetForIndex(index: int, width: int): (r: int)
    ensures IndexForOffset(r, width) == index
  {
    index * SlotWidth2 - Centring2(width)
  }

  /** `Math.round((x + (width - 430) / 2) / 80)` for an offset of `offset2`
      half pixels: the position whose `scrollTo` offset is nearest, a tie going to the
      later position (`Math.round` rounds halves up). */
  function IndexForOffset(offset2: int, width: int): (r: int)
    ensures r * SlotWidth2 - SlotWidth2 / 2 <= offset2 + Centring2(width) < r * SlotWidth2 + SlotWidth2 / 2
  {
    (offset2 + Centring2(width) + SlotWidth2 / 2) / SlotWidth2
  }

  /** The scroll-settle lookup `timeSlots[index]`: the slot under an offset,
      or None (`undefined`) when the rounded position is outside the table.
      No clamping is applied. */
  function SlotAtOffset(offset2: int, width: int): (r: Option<Slot>)
    ensures r.Some? <==> 0 <= IndexForOffset(offset2, width) < SlotCount
    ensures r.Some? ==> r.value == IndexForOffset(offset2, width)
  {
    var index := IndexForOffset(offset2, width);
    if 0 <= index < SlotCount then Some(index) else None
  }

  /** Scrolling to a slot and letting the picker settle selects that slot
      again, hence the same label. */
  lemma PickerRoundTrip(i: Slot, width: int)
    ensures SlotAtOffset(OffsetForIndex(i, width), width) == Some(i)
  {
  }

  /** An offset selects slot `i` exactly when it lies within half a slot of
      the offset `scrollTo` is given for `i` (the lower edge included). */
  lemma SlotAtOffsetIff(offset2: int, width: int, i: Slot)
    ensures SlotAtOffset(offset2, width) == Some(i) <==>
            OffsetForIndex(i, width) - SlotWidth2 / 2 <= offset2 < OffsetForIndex(i, width) + SlotWidth2 / 2
  {
  }

  /** The effect that follows a change of the selected label: find its table
      position (-1 when absent, which includes `undefined`: no label is
      `=== undefined`) and compute the offset to scroll to. */
  method ScrollTarget(times: seq<string>, selectedTime: string, width: int) returns (offset2: int)
    ensures selectedTime in times ==>
              0 <= IndexForOffset(offset2, width) < |times| &&
              times[IndexForOffset(offset2, width)] == selectedTime &&
              forall j :: 0 <= j < IndexForOffset(offset2, width) ==> times[j] != selectedTime
    ensures selectedTime !in times ==> offset2 == OffsetForIndex(-1, width)
    ensures offset2 == OffsetForIndex(IndexForOffset(offset2, width), width)
  {
    var index := FindIndex(times, selectedTime);
    offset2 := OffsetForIndex(index, width);
  }
}
