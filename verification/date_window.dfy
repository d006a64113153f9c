/**
 `get_dates` (pricing.py:56-75): the half-open `[start, end)` window of
 `YYYY-MM-DD` strings sent to the cost query, and the label that names the
 output files.

 The three modes are tried in order: `COST_DATE`, then `COST_START` together
 with `COST_END`, then yesterday. Python's truthiness decides each test, so a
 variable set to the empty string counts as unset. `today` is a parameter
 instead of `datetime.date.today()`.
 */
module DateWindow {
  import opened Wrappers
  import opened Calendar
  import opened DateText
  import opened Paths

  /** The `COST_DATE`, `COST_START` and `COST_END` environment variables. */
  datatype Selectors = Selectors(date: Option<string>, start: Option<string>, end: Option<string>)

  /** `(start, end, label)` as `get_dates` returns it; `end` is exclusive. */
  datatype Window = Window(start: string, end: string, labelText: string)

  /** `BadDate` is the `ValueError` of `strptime`, naming the offending text;
      `OutOfRange` is the `OverflowError` of stepping past `date.min` or `date.max`. */
  datatype WindowError = BadDate(text: string) | OutOfRange

  /** Python's `if VAR:` on an optional string. */
  predicate IsSet(v: Option<string>) {
    v.Some? && v.value != ""
  }

  /** The label joins the raw range texts, not the reformatted dates. */
  function RangeLabel(start: string, end: string): string {
    start + "_to_" + end
  }

  /** The window of one day `[d, d + 1 day)`. */
  function DayWindow(d: Date, labelText: string): Result<Window, WindowError>
    requires Valid(d)
  {
    if d == MaxDate then Failure(OutOfRange)
    else Success(Window(FormatDate(d), FormatDate(Succ(d)), labelText))
  }

  /** On success both bounds are in the canonical `YYYY-MM-DD` form that
      `strftime` writes, whatever form the selector texts had. */
  function GetDates(sel: Selectors, today: Date): (r: Result<Window, WindowError>)
    requires Valid(today)
    ensures r.Success? ==> Canonical(r.value.start) && Canonical(r.value.end)
  {
    if IsSet(sel.date) then
      match ParseDate(sel.date.value)
      case None => Failure(BadDate(sel.date.value))
      case Some(d) => DayWindow(d, sel.date.value)
    else if IsSet(sel.start) && IsSet(sel.end) then
      match ParseDate(sel.start.value)
      case None => Failure(BadDate(sel.start.value))
      case Some(s) =>
        match ParseDate(sel.end.value)
        case None => Failure(BadDate(sel.end.value))
        case Some(e) =>
          if e == MaxDate then Failure(OutOfRange)
          else Success(Window(FormatDate(s), FormatDate(Succ(e)), RangeLabel(sel.start.value, sel.end.value)))
    else if today == MinDate then Failure(OutOfRange)
    else
      var yesterday := Pred(today);
      DayWindow(yesterday, FormatDate(yesterday))
  }
  /** A set `COST_DATE` decides the result alone: the range variables and the
      current date are not consulted. */
  lemma DateWins(sel: Selectors, today: Date, other: Selectors, otherToday: Date)
    requires Valid(today) && Valid(otherToday)
    requires IsSet(sel.date) && other.date == sel.date
    ensures GetDates(sel, today) == GetDates(other, otherToday)
  {
  }

  /** Single-date mode: the window is `[D, D + 1 day)` written in canonical
      form, and the label is the `COST_DATE` text unchanged. */
  lemma SingleDateWindow(sel: Selectors, today: Date, d: Date)
    requires Valid(today)
    requires IsSet(sel.date) && ParseDate(sel.date.value) == Some(d) && d != MaxDate
    ensures GetDates(sel, today).Success?
    ensures ParseDate(GetDates(sel, today).value.start) == Some(d)
    ensures ParseDate(GetDates(sel, today).value.end) == Some(Succ(d))
    ensures Canonical(GetDates(sel, today).value.start) && Canonical(GetDates(sel, today).value.end)
    ensures GetDates(sel, today).value.labelText == sel.date.value
  {
    ParseFormat(d);
    ParseFormat(Succ(d));
  }

  /** Single-date mode fails exactly on a text `strptime` rejects (`ValueError`)
      and on `date.max`, whose successor overflows. */
  lemma SingleDateErrors(sel: Selectors, today: Date)
    requires Valid(today) && IsSet(sel.date)
    ensures ParseDate(sel.date.value).None? <==> GetDates(sel, today) == Failure(BadDate(sel.date.value))
    ensures ParseDate(sel.date.value) == Some(MaxDate) <==> GetDates(sel, today) == Failure(OutOfRange)
  {
  }

  /** Range mode: `[START, END + 1 day)` in canonical form, labelled with the two
      raw texts. */
  lemma RangeWindow(sel: Selectors, today: Date, s: Date, e: Date)
    requires Valid(today)
    requires !IsSet(sel.date) && IsSet(sel.start) && IsSet(sel.end)
    requires ParseDate(sel.start.value) == Some(s) && ParseDate(sel.end.value) == Some(e) && e != MaxDate
    ensures GetDates(sel, today).Success?
    ensures ParseDate(GetDates(sel, today).value.start) == Some(s)
    ensures ParseDate(GetDates(sel, today).value.end) == Some(Succ(e))
    ensures Canonical(GetDates(sel, today).value.start) && Canonical(GetDates(sel, today).value.end)
    ensures GetDates(sel, today).value.labelText == sel.start.value + "_to_" + sel.end.value
  {
    ParseFormat(s);
    ParseFormat(Succ(e));
  }

  /** Range mode reports the start text first when both are malformed, then the
      end text, then the overflow past `date.max`. */
  lemma RangeErrors(sel: Selectors, today: Date)
    requires Valid(today)
    requires !IsSet(sel.date) && IsSet(sel.start) && IsSet(sel.end)
    ensures ParseDate(sel.start.value).None? ==> GetDates(sel, today) == Failure(BadDate(sel.start.value))
    ensures ParseDate(sel.start.value).Some? && ParseDate(sel.end.value).None? ==>
      GetDates(sel, today) == Failure(BadDate(sel.end.value))
    ensures ParseDate(sel.start.value).Some? && ParseDate(sel.end.value) == Some(MaxDate) ==>
      GetDates(sel, today) == Failure(OutOfRange)
  {
  }

  /** The range is not checked for order: an end before the start still gives
      a window, one whose exclusive end does not lie after its start. */
  lemma RangeNotOrdered(today: Date, s: Date, e: Date)
    requires Valid(today) && Valid(s) && Valid(e) && e != MaxDate && Before(e, s)
    ensures var sel := Selectors(None, Some(FormatDate(s)), Some(FormatDate(e)));
      && GetDates(sel, today).Success?
      && ParseDate(GetDates(sel, today).value.end) == Some(Succ(e))
      && !Before(s, Succ(e))
  {
    ParseFormat(s);
    ParseFormat(e);
    ParseFormat(Succ(e));
    OrdinalOrder(e, s);
    OrdinalOrder(s, Succ(e));
    SuccOrdinal(e);
    assert FormatDate(s) != "" && FormatDate(e) != "";
  }

  /** With only one of `COST_START` and `COST_END` set (and no `COST_DATE`), the
      result is the default one, as if nothing were set. */
  lemma FallThrough(sel: Selectors, today: Date)
    requires Valid(today)
    requires !IsSet(sel.date) && !(IsSet(sel.start) && IsSet(sel.end))
    ensures GetDates(sel, today) == GetDates(Selectors(None, None, None), today)
  {
  }

  /** Default mode: the window is yesterday, `[today - 1 day, today)`, exactly one
      calendar day, and the label is its start. */
  lemma DefaultWindow(sel: Selectors, today: Date)
    requires Valid(today) && today != MinDate
    requires !IsSet(sel.date) && !(IsSet(sel.start) && IsSet(sel.end))
    ensures GetDates(sel, today).Success?
    ensures ParseDate(GetDates(sel, today).value.start) == Some(Pred(today))
    ensures Canonical(GetDates(sel, today).value.start)
    ensures GetDates(sel, today).value.end == FormatDate(today)
    ensures ParseDate(GetDates(sel, today).value.end) == Some(Succ(Pred(today)))
    ensures GetDates(sel, today).value.labelText == GetDates(sel, today).value.start
  {
    ParseFormat(Pred(today));
    SuccPred(today);
    ParseFormat(today);
  }

  /** Default mode on `date.min` overflows. */
  lemma DefaultOverflow(sel: Selectors)
    requires !IsSet(sel.date) && !(IsSet(sel.start) && IsSet(sel.end))
    ensures GetDates(sel, MinDate) == Failure(OutOfRange)
  {
    EndsValid();
  }

  lemma ParsedHasNoSlash(t: string)
    requires ParseDate(t).Some?
    ensures NoSlash(t)
  {
    ParsedCharacters(t);
  }

  lemma RangeLabelHasNoSlash(start: string, end: string)
    requires ParseDate(start).Some? && ParseDate(end).Some?
    ensures NoSlash(RangeLabel(start, end))
  {
    ParsedHasNoSlash(start);
    ParsedHasNoSlash(end);
    ConcatHasNoSlash(start, "_to_");
    ConcatHasNoSlash(start + "_to_", end);
  }

  lemma FormattedHasNoSlash(d: Date)
    requires Valid(d)
    ensures NoSlash(FormatDate(d))
  {
    var t := FormatDate(d);
    assert forall k :: 0 <= k < |t| ==> IsDigit(t[k]) || k == 4 || k == 7;
  }

  /** No label contains `/`: the file names built from it are single path
      components. */
  lemma LabelHasNoSlash(sel: Selectors, today: Date)
    requires Valid(today) && GetDates(sel, today).Success?
    ensures NoSlash(GetDates(sel, today).value.labelText)
  {
    if IsSet(sel.date) {
      ParsedHasNoSlash(sel.date.value);
    } else if IsSet(sel.start) && IsSet(sel.end) {
      RangeLabelHasNoSlash(sel.start.value, sel.end.value);
    } else {
      FormattedHasNoSlash(Pred(today));
    }
  }

  /** The label keeps the raw text while the bounds are reformatted:
      `COST_DATE=2024-1-5` queries `[2024-01-05, 2024-01-06)` under the label
      `2024-1-5`. */
  lemma RawLabelExample(today: Date)
    requires Valid(today)
    ensures GetDates(Selectors(Some("2024-1-5"), None, None), today)
      == Success(Window("2024-01-05", "2024-01-06", "2024-1-5"))
  {
    ParseShortFields();
    assert FormatDate(Date(2024, 1, 5)) == "2024-01-05";
    assert FormatDate(Date(2024, 1, 6)) == "2024-01-06";
  }
}
