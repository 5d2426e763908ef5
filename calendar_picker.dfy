/**
 * The calendar drop-down: the label on its button for each kind of selected
 * value, and when the drop-down opens and closes. Dates are left abstract; the
 * rendering `toDateString` is a parameter.
 */
module CalendarPicker {
  import opened Options

  /** `Date | null | [Date | null, Date | null]`. */
  datatype CalendarValue<D> = NoValue | Single(date: D) | Range(start: Option<D>, end: Option<D>)

  const Placeholder: string := "Select date"

  /** A range with both ends chosen. */
  predicate IsCompleteRange<D>(v: CalendarValue<D>) {
    v.Range? && v.start.Some? && v.end.Some?
  }

  /**
   * `formatLabel`: the placeholder without a value or without a range start;
   * the date for a single date; both dates around an em dash for a complete
   * range; the start followed by an arrow and an ellipsis while the end is
   * still open.
   */
  function FormatLabel<D>(value: CalendarValue<D>, toDateString: D -> string): (shown: string)
    ensures value.NoValue? || (value.Range? && value.start.None?) ==> shown == Placeholder
    ensures value.Single? ==> shown == toDateString(value.date)
    ensures IsCompleteRange(value) ==>
      shown == toDateString(value.start.value) + " \U{2014} " + toDateString(value.end.value)
    ensures value.Range? && value.start.Some? && value.end.None? ==>
      shown == toDateString(value.start.value) + " \U{2192} \U{2026}"
  {
    match value
    case NoValue => Placeholder
    case Single(d) => toDateString(d)
    case Range(Some(s), Some(e)) => toDateString(s) + " \U{2014} " + toDateString(e)
    case Range(Some(s), None) => toDateString(s) + " \U{2192} \U{2026}"
    case Range(None, _) => Placeholder
  }

  /**
   * When no date renders as the placeholder, the label is the placeholder
   * exactly when no date has been picked yet (no value, or a range without a
   * start), and otherwise it begins with the rendering of the first date.
   */
  lemma PlaceholderIffNothingPicked<D>(value: CalendarValue<D>, toDateString: D -> string)
    requires forall d :: toDateString(d) != Placeholder
    ensures FormatLabel(value, toDateString) == Placeholder <==>
      value.NoValue? || (value.Range? && value.start.None?)
    ensures value.Single? ==> FormatLabel(value, toDateString)[..|toDateString(value.date)|] == toDateString(value.date)
    ensures value.Range? && value.start.Some? ==>
      var first := toDateString(value.start.value);
      |FormatLabel(value, toDateString)| > |first| &&
      FormatLabel(value, toDateString)[..|first|] == first
  {
    match value
    case NoValue =>
    case Single(d) =>
    case Range(Some(s), Some(e)) =>
      var text := FormatLabel(value, toDateString);
      assert text[|toDateString(s)| + 1] == '\U{2014}';
      assert '\U{2014}' !in Placeholder;
    case Range(Some(s), None) =>
      var text := FormatLabel(value, toDateString);
      assert text[|toDateString(s)| + 1] == '\U{2192}';
      assert '\U{2192}' !in Placeholder;
    case Range(None, _) =>
  }

  /** Whether the drop-down is open; the selected value belongs to the parent. */
  class Picker<D> {
    var open: bool

    constructor ()
      ensures !open
    {
      open := false;
    }

    /** The button flips the drop-down. */
    method Toggle()
      modifies this
      ensures open == !old(open)
    {
      open := !open;
    }

    /**
     * The calendar's change handler: the new value is passed on to the parent
     * unchanged, and the drop-down closes once both ends of a range are chosen;
     * otherwise it stays as it was.
     */
    method CalendarChanged(v: CalendarValue<D>) returns (forwarded: CalendarValue<D>)
      modifies this
      ensures forwarded == v
      ensures open == (old(open) && !IsCompleteRange(v))
    {
      forwarded := v;
      if IsCompleteRange(v) {
        open := false;
      }
    }
  }
}
