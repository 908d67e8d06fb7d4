/** The calendar marking projector: which days the calendar highlights, and
    how, given the saved intervals and today's date. */
module Marking {
  import opened Screen

  /** A day's decoration as the calendar receives it. */
  datatype Mark = Mark(selected: bool, selectedColor: string, selectedTextColor: string)

  /** A day with a saved interval: green with black text. */
  const Confirmed: Mark := Mark(true, "#00D06D", "black")
  /** Today without a saved interval: red with white text. */
  const NeedsAttention: Mark := Mark(true, "#FF5D62", "white")

  /** Every saved date is marked confirmed (the `reduce` over the saved
      keys), then today's entry is set: confirmed when saved, otherwise
      needs-attention. No other date is marked. */
  method MarkedDates(savedTimes: map<string, Interval>, currentDate: string) returns (marks: map<string, Mark>)
    ensures marks.Keys == savedTimes.Keys + {currentDate}
    ensures forall d :: d in savedTimes ==> marks[d] == Confirmed
    ensures currentDate !in savedTimes ==> marks[currentDate] == NeedsAttention
  {
    marks := map[];
    var pending := savedTimes.Keys;
    while pending != {}
      invariant pending <= savedTimes.Keys
      invariant marks.Keys == savedTimes.Keys - pending
      invariant forall d :: d in marks ==> marks[d] == Confirmed
      decreases pending
    {
      var date :| date in pending;
      marks := marks[date := Confirmed];
      pending := pending - {date};
    }
    marks := marks[currentDate := if currentDate in savedTimes then Confirmed else NeedsAttention];
  }
}
