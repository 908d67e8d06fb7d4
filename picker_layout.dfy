/** Where the picker's slots actually sit, and the mapping the layout calls
    for.

    The modal's content has a 20-pixel padding (`modalContent`), so each
    picker's viewport is `width - 40` pixels wide. The scroll content is
    padded by `(width - 80) / 2` on each side, so slot `i`'s centre lies at
    content position `width / 2 + 80 * i`, and it is under the viewport's
    centre `(width - 40) / 2` exactly at offset `80 * i + 20`. The scroll
    range runs from 0 to 7640 pixels: the 96 slots plus both paddings, less
    the viewport. All offsets are in half pixels, as in `Picker`.

    The picker's own mapping uses the term `(width - 430) / 2` instead,
    which coincides with the layout only for a 390-pixel-wide window. */
module PickerLayout {
  import opened Wrappers
  import opened TimeSlots
  import opened Picker

  /** The 20-pixel modal inset, in half pixels: the offset that centres
      slot 0. */
  const Inset2: int := 40

  /** The last scroll position: `96*80 + (width - 80) - (width - 40)` pixels. */
  const MaxOffset2: int := (SlotCount - 1) * SlotWidth2 + SlotWidth2 / 2

  /** The offset that centres slot `index`. */
  function CentredOffsetForIndex(index: int): (r: int)
    ensures CentredIndex(r) == index
  {
    index * SlotWidth2 + Inset2
  }

  /** The position of the slot nearest the viewport centre at `offset2`,
      a tie going to the later slot. */
  function CentredIndex(offset2: int): (r: int)
    ensures r * SlotWidth2 + Inset2 - SlotWidth2 / 2 <= offset2 < r * SlotWidth2 + Inset2 + SlotWidth2 / 2
  {
    (offset2 - Inset2 + SlotWidth2 / 2) / SlotWidth2
  }

  /** The lookup the layout calls for: the slot under the viewport centre. */
  function CentredSlotAtOffset(offset2: int): (r: Option<Slot>)
    ensures r.Some? <==> 0 <= CentredIndex(offset2) < SlotCount
    ensures r.Some? ==> r.value == CentredIndex(offset2)
  {
    var index := CentredIndex(offset2);
    if 0 <= index < SlotCount then Some(index) else None
  }

  // ---------------------------------------------------------------------------
  // The picker's mapping as written

  /** As written, a 320-pixel window settling at the very start of the range
      (where slot 0 is under the centre) computes position -1, outside the
      table, and hands `undefined` on as the picked time. */
  lemma NarrowWindowStartLeavesTable()
    ensures CentredSlotAtOffset(0) == Some(0)
    ensures IndexForOffset(0, 320) == -1 && SlotAtOffset(0, 320) == None
  {
  }

  /** As written, a 768-pixel window settling at the very end of the range
      (where slot 95 is under the centre) computes position 98. */
  lemma WideWindowEndLeavesTable()
    ensures CentredSlotAtOffset(MaxOffset2) == Some(SlotCount - 1)
    ensures IndexForOffset(MaxOffset2, 768) == 98 && SlotAtOffset(MaxOffset2, 768) == None
  {
  }

  /** At the snap offsets `80*k`, where the slot under the centre is `k`,
      the picker as written selects `k + (width - 350) / 160`: the right
      slot only for widths 350..509. */
  lemma SnapOffsetsAsWritten(k: int, width: int)
    ensures CentredIndex(k * SlotWidth2) == k
    ensures IndexForOffset(k * SlotWidth2, width) == k + (width - 350) / SlotWidth2
  {
    assert k * SlotWidth2 + Centring2(width) + SlotWidth2 / 2 == k * SlotWidth2 + (width - 350);
  }

  /** As written, both ends of the scroll range select a table slot exactly
      for widths 350..429; the centred lookup does for every width. */
  lemma RangeEndsAsWritten(width: int)
    ensures SlotAtOffset(0, width).Some? && SlotAtOffset(MaxOffset2, width).Some? <==> 350 <= width < 430
    ensures CentredSlotAtOffset(0).Some? && CentredSlotAtOffset(MaxOffset2).Some?
  {
  }

  // ---------------------------------------------------------------------------
  // The centred mapping

  /** Every offset in the scroll range selects a table slot, namely the one
      under the viewport centre. */
  lemma CentredStaysInTable(offset2: int)
    requires 0 <= offset2 <= MaxOffset2
    ensures CentredSlotAtOffset(offset2) == Some(CentredIndex(offset2))
  {
  }

  /** Scrolling to a slot's centred offset stays in range and selects that
      slot again. */
  lemma CentredRoundTrip(i: Slot)
    ensures 0 <= CentredOffsetForIndex(i) <= MaxOffset2
    ensures CentredSlotAtOffset(CentredOffsetForIndex(i)) == Some(i)
  {
  }

  /** For a 390-pixel window the picker's mapping is the centred one, in
      both directions and at every offset. */
  lemma AgreesAtWidth390(offset2: int, index: int)
    ensures SlotAtOffset(offset2, 390) == CentredSlotAtOffset(offset2)
    ensures OffsetForIndex(index, 390) == CentredOffsetForIndex(index)
  {
  }
}
