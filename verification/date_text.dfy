/**
 `datetime.strptime(text, "%Y-%m-%d").date()` and `date.strftime("%Y-%m-%d")`.

 CPython's `_strptime` turns the format into the regular expression
 `(\d\d\d\d)-(1[0-2]|0[1-9]|[1-9])-(3[01]|[12]\d|0[1-9]|[1-9]| [1-9])`,
 matches it at the start of the text, raises `ValueError` when it does not
 match or when characters remain after the match, and then builds the date,
 raising `ValueError` again for year 0 or a day past the end of the month.
 So month and day may be written with one digit, and the day also as a
 space followed by a digit; `strftime` always writes two digits.
 */
module DateText {
  import opened Wrappers
  import opened Calendar

  predicate IsDigit(c: char) {
    '0' <= c <= '9'
  }

  function DigitValue(c: char): int
    requires IsDigit(c)
  {
    c as int - '0' as int
  }

  function DigitChar(n: int): char
    requires 0 <= n <= 9
  {
    ('0' as int + n) as char
  }

  /** The `%Y` field: exactly four digits. */
  predicate YearField(t: string) {
    |t| == 4 && IsDigit(t[0]) && IsDigit(t[1]) && IsDigit(t[2]) && IsDigit(t[3])
  }

  /** The `%m` field: `1[0-2]`, `0[1-9]` or `[1-9]`. */
  predicate MonthField(t: string) {
    || (|t| == 2 && t[0] == '1' && '0' <= t[1] <= '2')
    || (|t| == 2 && t[0] == '0' && '1' <= t[1] <= '9')
    || (|t| == 1 && '1' <= t[0] <= '9')
  }

  /** The `%d` field: `3[01]`, `[12]\d`, `0[1-9]`, `[1-9]` or ` [1-9]`. */
  predicate DayField(t: string) {
    || (|t| == 2 && t[0] == '3' && '0' <= t[1] <= '1')
    || (|t| == 2 && '1' <= t[0] <= '2' && IsDigit(t[1]))
    || (|t| == 2 && t[0] == '0' && '1' <= t[1] <= '9')
    || (|t| == 1 && '1' <= t[0] <= '9')
    || (|t| == 2 && t[0] == ' ' && '1' <= t[1] <= '9')
  }

  function YearValue(t: string): int
    requires YearField(t)
  {
    DigitValue(t[0]) * 1000 + DigitValue(t[1]) * 100 + DigitValue(t[2]) * 10 + DigitValue(t[3])
  }

  /** `int()` of a one- or two-character field; a leading space is ignored. */
  function SmallValue(t: string): int
    requires MonthField(t) || DayField(t)
  {
    if |t| == 1 then DigitValue(t[0])
    else if t[0] == ' ' then DigitValue(t[1])
    else DigitValue(t[0]) * 10 + DigitValue(t[1])
  }

  /** Position of the first `c` in `s`, or `|s|` when there is none. */
  function IndexOf(s: string, c: char): (i: nat)
    ensures i <= |s|
    ensures i < |s| ==> s[i] == c
    ensures forall k :: 0 <= k < i ==> s[k] != c
  {
    if |s| == 0 then 0
    else if s[0] == c then 0
    else 1 + IndexOf(s[1..], c)
  }

  /** `strptime(s, "%Y-%m-%d").date()`; `None` where it raises `ValueError`.
      The month field ends at the first `-` after the year, because no month
      alternative contains a `-`; the day field must then be the whole rest. */
  function ParseDate(s: string): (r: Option<Date>)
    ensures r.Some? ==> Valid(r.value)
    ensures r.Some? ==> 8 <= |s| <= 10 && YearField(s[..4]) && r.value.year == YearValue(s[..4])
  {
    if |s| < 5 || !YearField(s[..4]) || s[4] != '-' then None
    else
      var rest := s[5..];
      var j := IndexOf(rest, '-');
      if j == |rest| then None
      else
        var monthText, dayText := rest[..j], rest[j + 1..];
        if !MonthField(monthText) || !DayField(dayText) then None
        else
          var d := Date(YearValue(s[..4]), SmallValue(monthText), SmallValue(dayText));
          if Valid(d) then Some(d) else None
  }

  function Pad2(n: int): (t: string)
    requires 0 <= n <= 99
    ensures |t| == 2 && IsDigit(t[0]) && IsDigit(t[1])
    ensures DigitValue(t[0]) * 10 + DigitValue(t[1]) == n
  {
    [DigitChar(n / 10), DigitChar(n % 10)]
  }

  function Pad4(n: int): (t: string)
    requires 0 <= n <= 9999
    ensures YearField(t) && YearValue(t) == n
  {
    Pad2(n / 100) + Pad2(n % 100)
  }

  /** The canonical `YYYY-MM-DD` shape: ten characters, no blank padding. */
  predicate Canonical(t: string) {
    |t| == 10 && ' ' !in t
  }

  /** `date.strftime("%Y-%m-%d")`, zero-padded to ten characters. */
  function FormatDate(d: Date): (t: string)
    requires Valid(d)
    ensures |t| == 10 && t[4] == '-' && t[7] == '-'
    ensures forall k :: 0 <= k < |t| && k != 4 && k != 7 ==> IsDigit(t[k])
    ensures Canonical(t)
  {
    Pad4(d.year) + "-" + Pad2(d.month) + "-" + Pad2(d.day)
  }
  lemma Pad4OfYear(t: string)
    requires YearField(t)
    ensures Pad4(YearValue(t)) == t
  {
    var high := DigitValue(t[0]) * 10 + DigitValue(t[1]);
    var low := DigitValue(t[2]) * 10 + DigitValue(t[3]);
    DivUnique(YearValue(t), 100, high, low);
    Pad2OfField(t[..2]);
    Pad2OfField(t[2..]);
    assert t == t[..2] + t[2..];
  }

  lemma Pad2OfField(t: string)
    requires |t| == 2 && IsDigit(t[0]) && IsDigit(t[1])
    ensures Pad2(DigitValue(t[0]) * 10 + DigitValue(t[1])) == t
  {
    DivUnique(DigitValue(t[0]) * 10 + DigitValue(t[1]), 10, DigitValue(t[0]), DigitValue(t[1]));
    var p := Pad2(DigitValue(t[0]) * 10 + DigitValue(t[1]));
    assert p[0] == t[0] && p[1] == t[1];
  }

  /** `strftime` then `strptime` gives the date back. */
  lemma ParseFormat(d: Date)
    requires Valid(d)
    ensures ParseDate(FormatDate(d)) == Some(d)
  {
    var s := FormatDate(d);
    var y, m, dd := Pad4(d.year), Pad2(d.month), Pad2(d.day);
    assert s == y + "-" + m + "-" + dd;
    assert s[..4] == y;
    var rest := s[5..];
    assert rest == m + "-" + dd;
    assert IndexOf(rest, '-') == 2;
    assert rest[..2] == m && rest[3..] == dd;
  }

  /** A parsed text is the formatted date exactly when it is written in the
      canonical ten-character form: otherwise the window's reformatted bounds
      and its raw-text label differ. */
  lemma FormatOfParse(s: string, d: Date)
    requires ParseDate(s) == Some(d)
    ensures FormatDate(d) == s <==> Canonical(s)
  {
    if Canonical(s) {
      var rest := s[5..];
      var j := IndexOf(rest, '-');
      var monthText, dayText := rest[..j], rest[j + 1..];
      assert |monthText| == 2 && |dayText| == 2;
      assert dayText[0] in s;
      Pad4OfYear(s[..4]);
      Pad2OfField(monthText);
      Pad2OfField(dayText);
      assert s == s[..4] + "-" + monthText + "-" + dayText;
    }
  }

  /** A date text the parser accepts holds only digits, `-` and spaces; in
      particular no `/`, so it is a single path component. */
  lemma ParsedCharacters(s: string)
    requires ParseDate(s).Some?
    ensures forall k :: 0 <= k < |s| ==> IsDigit(s[k]) || s[k] == '-' || s[k] == ' '
  {
    var rest := s[5..];
    var j := IndexOf(rest, '-');
    var monthText, dayText := rest[..j], rest[j + 1..];
    assert s == s[..4] + "-" + monthText + "-" + dayText;
  }

  /** `s` is a year field, `-`, a month field ending at `j`, `-` and a day field. */
  predicate FieldsAt(s: string, j: int) {
    && 5 <= j < |s| && s[4] == '-' && s[j] == '-'
    && YearField(s[..4]) && MonthField(s[5..j]) && DayField(s[j + 1..])
  }

  /** The date those fields name. */
  function FieldsDate(s: string, j: int): Date
    requires FieldsAt(s, j)
  {
    Date(YearValue(s[..4]), SmallValue(s[5..j]), SmallValue(s[j + 1..]))
  }

  /** Every accepted text is a four-digit year, `-`, a month field, `-` and a
      day field, and the date is read from exactly those fields. */
  lemma ParseShape(s: string)
    requires ParseDate(s).Some?
    ensures exists j :: FieldsAt(s, j) && ParseDate(s) == Some(FieldsDate(s, j))
  {
    var rest := s[5..];
    var j := IndexOf(rest, '-');
    assert rest[..j] == s[5..5 + j] && rest[j + 1..] == s[5 + j + 1..];
    assert FieldsAt(s, 5 + j);
    assert ParseDate(s) == Some(FieldsDate(s, 5 + j));
  }

  /** The grammar the parser implements, field by field: a four-digit year, a
      month field without `-`, and a day field, joined by `-`. */
  lemma ParseFields(y: string, m: string, d: string)
    requires YearField(y)
    requires forall k :: 0 <= k < |m| ==> m[k] != '-'
    ensures ParseDate(y + "-" + m + "-" + d) ==
      if MonthField(m) && DayField(d) && Valid(Date(YearValue(y), SmallValue(m), SmallValue(d)))
      then Some(Date(YearValue(y), SmallValue(m), SmallValue(d)))
      else None
  {
    var s := y + "-" + m + "-" + d;
    assert s[..4] == y;
    var rest := s[5..];
    assert rest == m + "-" + d;
    var j := IndexOf(rest, '-');
    assert rest[|m|] == '-';
    assert j == |m|;
    assert rest[..j] == m && rest[j + 1..] == d;
  }

  /** One-digit month and day fields are accepted. */
  lemma ParseShortFields()
    ensures ParseDate("2024-1-5") == Some(Date(2024, 1, 5))
  {
    assert YearField("2024") && YearValue("2024") == 2024;
    ParseFields("2024", "1", "5");
    assert "2024" + "-" + "1" + "-" + "5" == "2024-1-5";
  }

  /** A day written as a space and a digit is accepted. */
  lemma ParseSpacePaddedDay()
    ensures ParseDate("2024-01- 5") == Some(Date(2024, 1, 5))
  {
    assert YearField("2024") && YearValue("2024") == 2024;
    ParseFields("2024", "01", " 5");
    assert "2024" + "-" + "01" + "-" + " 5" == "2024-01- 5";
  }

  /** 29 February exists in a leap year ... */
  lemma ParseLeapDay()
    ensures ParseDate("2024-02-29") == Some(Date(2024, 2, 29))
  {
    assert YearField("2024") && YearValue("2024") == 2024;
    ParseFields("2024", "02", "29");
    assert "2024" + "-" + "02" + "-" + "29" == "2024-02-29";
  }

  /** ... and not otherwise: `day is out of range for month`. */
  lemma ParseRejectsNonLeapDay()
    ensures ParseDate("2023-02-29") == None
  {
    assert YearField("2023") && YearValue("2023") == 2023;
    ParseFields("2023", "02", "29");
    assert "2023" + "-" + "02" + "-" + "29" == "2023-02-29";
  }

  /** `13` is no month field, so the pattern does not match. */
  lemma ParseRejectsMonth13()
    ensures ParseDate("2024-13-01") == None
  {
    assert YearField("2024") && YearValue("2024") == 2024;
    ParseFields("2024", "13", "01");
    assert "2024" + "-" + "13" + "-" + "01" == "2024-13-01";
  }

  /** Year 0 matches the pattern but is outside `datetime.date`'s range. */
  lemma ParseRejectsYearZero()
    ensures ParseDate("0000-01-01") == None
  {
    assert YearField("0000") && YearValue("0000") == 0;
    ParseFields("0000", "01", "01");
    assert "0000" + "-" + "01" + "-" + "01" == "0000-01-01";
  }

  /** Characters after the day field: `unconverted data remains`. */
  lemma ParseRejectsTrailing()
    ensures ParseDate("2024-01-01 ") == None
  {
    assert YearField("2024") && YearValue("2024") == 2024;
    ParseFields("2024", "01", "01 ");
    assert "2024" + "-" + "01" + "-" + "01 " == "2024-01-01 ";
  }

  lemma ParseRejectsShapes()
    ensures ParseDate("24-01-01") == None
    ensures ParseDate("2024/01/01") == None
    ensures ParseDate("") == None
  {
  }
}
