/**
  Calendar dates and the ordered-format date reader `_parse_date_flexible`
  (core/utils/parse_utils.py).  Each entry of DATE_FORMATS is a separator and
  three directives; `datetime.strptime` with such a format accepts a string
  exactly when it splits on the separator into three fields, each field is
  wholly matched by its directive's pattern, and the result is a real date.
 */
module Dates {
  import opened Wrappers
  import opened Chars
  import opened TextFields

  datatype Date = Date(year: nat, month: nat, day: nat)

  predicate IsLeap(y: nat) {
    y % 4 == 0 && (y % 100 != 0 || y % 400 == 0)
  }

  function DaysInMonth(y: nat, m: nat): nat
    requires 1 <= m <= 12
  {
    if m == 2 then (if IsLeap(y) then 29 else 28)
    else if m == 4 || m == 6 || m == 9 || m == 11 then 30
    else 31
  }

  /** What `datetime.date` accepts. */
  predicate ValidDate(d: Date) {
    1 <= d.year <= 9999 && 1 <= d.month <= 12 && 1 <= d.day <= DaysInMonth(d.year, d.month)
  }

  /** `date.isoformat()` (also `str(date)`): "YYYY-MM-DD". */
  function IsoFormat(d: Date): string {
    ZeroPad(NatToString(d.year), 4) + "-" + ZeroPad(NatToString(d.month), 2) + "-" + ZeroPad(NatToString(d.day), 2)
  }

  // ---------------------------------------------------------------------------
  // DATE_FORMATS
  // ---------------------------------------------------------------------------

  /** The strptime directives the formats use: %d, %m, %b, %y and %Y. */
  datatype Directive = DayOfMonth | MonthNumber | MonthAbbrev | ShortYear | FullYear

  datatype DateFormat = DateFormat(sep: char, first: Directive, second: Directive, third: Directive)

  /** "%d-%b-%y", "%d-%b-%Y", "%Y-%m-%d", "%m/%d/%y", "%m/%d/%Y", "%d.%m.%y", in this order. */
  const DateFormats: seq<DateFormat> := [
    DateFormat('-', DayOfMonth, MonthAbbrev, ShortYear),
    DateFormat('-', DayOfMonth, MonthAbbrev, FullYear),
    DateFormat('-', FullYear, MonthNumber, DayOfMonth),
    DateFormat('/', MonthNumber, DayOfMonth, ShortYear),
    DateFormat('/', MonthNumber, DayOfMonth, FullYear),
    DateFormat('.', DayOfMonth, MonthNumber, ShortYear)
  ]

  predicate NonZeroDigit(c: char) {
    '1' <= c <= '9'
  }

  /** strptime's %d pattern `3[01]|[12]\d|0[1-9]|[1-9]| [1-9]`, matching the whole field. */
  predicate DayPattern(p: string) {
    || (|p| == 2 && p[0] == '3' && (p[1] == '0' || p[1] == '1'))
    || (|p| == 2 && (p[0] == '1' || p[0] == '2') && IsDigit(p[1]))
    || (|p| == 2 && p[0] == '0' && NonZeroDigit(p[1]))
    || (|p| == 1 && NonZeroDigit(p[0]))
    || (|p| == 2 && p[0] == ' ' && NonZeroDigit(p[1]))
  }

  /** strptime's %m pattern `1[0-2]|0[1-9]|[1-9]`, matching the whole field. */
  predicate MonthPattern(p: string) {
    || (|p| == 2 && p[0] == '1' && '0' <= p[1] <= '2')
    || (|p| == 2 && p[0] == '0' && NonZeroDigit(p[1]))
    || (|p| == 1 && NonZeroDigit(p[0]))
  }

  /** English month abbreviations, in calendar order, compared case-insensitively by %b. */
  const MonthAbbrevs: seq<string> := ["jan", "feb", "mar", "apr", "may", "jun", "jul", "aug", "sep", "oct", "nov", "dec"]

  /** The month whose abbreviation equals `p` ignoring case (0 when none does). */
  function MonthOfAbbrev(p: string): (m: nat)
    ensures m <= 12
    ensures m > 0 ==> |p| == 3 && Lower(p) == MonthAbbrevs[m - 1]
  {
    if |p| != 3 then 0
    else
      var l := Lower(p);
      LowerAt(p, 0); LowerAt(p, 1); LowerAt(p, 2);
      assert l == [l[0], l[1], l[2]];
      if l == [l[0], l[1], l[2]] && l[0] == 'j' && l[1] == 'a' && l[2] == 'n' then 1
      else if l[0] == 'f' && l[1] == 'e' && l[2] == 'b' then 2
      else if l[0] == 'm' && l[1] == 'a' && l[2] == 'r' then 3
      else if l[0] == 'a' && l[1] == 'p' && l[2] == 'r' then 4
      else if l[0] == 'm' && l[1] == 'a' && l[2] == 'y' then 5
      else if l[0] == 'j' && l[1] == 'u' && l[2] == 'n' then 6
      else if l[0] == 'j' && l[1] == 'u' && l[2] == 'l' then 7
      else if l[0] == 'a' && l[1] == 'u' && l[2] == 'g' then 8
      else if l[0] == 's' && l[1] == 'e' && l[2] == 'p' then 9
      else if l[0] == 'o' && l[1] == 'c' && l[2] == 't' then 10
      else if l[0] == 'n' && l[1] == 'o' && l[2] == 'v' then 11
      else if l[0] == 'd' && l[1] == 'e' && l[2] == 'c' then 12
      else 0
  }

  /** The numeric value of a field whose only non-digit may be %d's leading space. */
  function FieldValue(p: string): nat {
    if |p| > 0 && p[0] == ' ' then FieldValue(p[1..])
    else if AllDigits(p) then DigitsValue(p)
    else 0
  }

  lemma DayPatternValue(p: string)
    requires DayPattern(p)
    ensures 1 <= FieldValue(p) <= 31
  {
    if p[0] == ' ' {
      OneDigit(p[1..]);
    } else if |p| == 2 {
      TwoDigits(p);
    } else {
      OneDigit(p);
    }
  }

  lemma MonthPatternValue(p: string)
    requires MonthPattern(p)
    ensures 1 <= FieldValue(p) <= 12
  {
    if |p| == 2 {
      TwoDigits(p);
    } else {
      OneDigit(p);
    }
  }

  /** %y: two digits; 69-99 are 1900s, 00-68 are 2000s. */
  function ShortYearValue(v: nat): nat {
    if v <= 68 then 2000 + v else 1900 + v
  }

  /** The value one directive reads from a whole field, if it matches. */
  function ReadField(dir: Directive, p: string): (r: Option<nat>)
    ensures r.Some? && (dir == DayOfMonth) ==> 1 <= r.value <= 31
    ensures r.Some? && (dir == MonthNumber || dir == MonthAbbrev) ==> 1 <= r.value <= 12
  {
    match dir
    case DayOfMonth =>
      if DayPattern(p) then DayPatternValue(p); Some(FieldValue(p)) else None
    case MonthNumber =>
      if MonthPattern(p) then MonthPatternValue(p); Some(FieldValue(p)) else None
    case MonthAbbrev =>
      var m := MonthOfAbbrev(p);
      if m > 0 then Some(m) else None
    case ShortYear =>
      if |p| == 2 && AllDigits(p) then Some(ShortYearValue(DigitsValue(p))) else None
    case FullYear =>
      if |p| == 4 && AllDigits(p) then Some(DigitsValue(p)) else None
  }

  predicate IsYear(dir: Directive) { dir == ShortYear || dir == FullYear }
  predicate IsMonth(dir: Directive) { dir == MonthNumber || dir == MonthAbbrev }

  /** Assembles the date from the three values read, by the role of each directive. */
  function Assemble(f: DateFormat, a: nat, b: nat, c: nat): Date {
    Date(
      if IsYear(f.first) then a else if IsYear(f.second) then b else c,
      if IsMonth(f.first) then a else if IsMonth(f.second) then b else c,
      if f.first == DayOfMonth then a else if f.second == DayOfMonth then b else c)
  }

  /** `datetime.strptime(t, fmt).date()`, or None where it raises. */
  function MatchFormat(t: string, f: DateFormat): (r: Option<Date>)
    ensures r.Some? ==> ValidDate(r.value)
    ensures r.Some? ==> |Split(t, f.sep)| == 3
  {
    var pieces := Split(t, f.sep);
    if |pieces| != 3 then None
    else
      match (ReadField(f.first, pieces[0]), ReadField(f.second, pieces[1]), ReadField(f.third, pieces[2]))
      case (Some(a), Some(b), Some(c)) =>
        var d := Assemble(f, a, b, c);
        if ValidDate(d) then Some(d) else None
      case _ => None
  }

  /** The first format at or after index `i` that accepts `t`. */
  function FirstFormatFrom(t: string, i: nat): (r: Option<Date>)
    requires i <= |DateFormats|
    ensures r.Some? ==> ValidDate(r.value)
    decreases |DateFormats| - i
  {
    if i == |DateFormats| then None
    else
      var m := MatchFormat(t, DateFormats[i]);
      if m.Some? then m else FirstFormatFrom(t, i + 1)
  }

  /** OCR clean-up before matching: clean whitespace, delete '|', read every 'l' as '1', strip. */
  function DatePrep(s: string): string {
    Strip(ReplaceChar(ReplaceChar(CleanText(s), '|', ""), 'l', "1"))
  }

  /** `_parse_date_flexible` as a value: None for a missing or empty text, else the first format's date. */
  function DateFlexible(s: Option<string>): (r: Option<Date>)
    ensures r.Some? ==> ValidDate(r.value)
    ensures s.None? || s == Some("") ==> r.None?
  {
    if s.None? || s.value == "" then None else FirstFormatFrom(DatePrep(s.value), 0)
  }

  /** `_parse_date_flexible`: tries DATE_FORMATS in order and returns the first date read. */
  method ParseDateFlexible(s: Option<string>) returns (r: Option<Date>)
    ensures r == DateFlexible(s)
  {
    if s.None? || s.value == "" {
      return None;
    }
    var t := DatePrep(s.value);
    var i := 0;
    while i < |DateFormats|
      invariant 0 <= i <= |DateFormats|
      invariant FirstFormatFrom(t, i) == FirstFormatFrom(t, 0)
    {
      var m := MatchFormat(t, DateFormats[i]);
      if m.Some? {
        return m;
      }
      i := i + 1;
    }
    return None;
  }

  // ---------------------------------------------------------------------------
  // Properties
  // ---------------------------------------------------------------------------

  lemma OneDigit(p: string)
    requires |p| == 1 && NonZeroDigit(p[0])
    ensures FieldValue(p) == DigitsValue(p) == DigitValue(p[0])
  {
    assert p[..0] == [];
  }

  lemma TwoDigits(p: string)
    requires |p| == 2 && AllDigits(p)
    ensures DigitsValue(p) == 10 * DigitValue(p[0]) + DigitValue(p[1])
  {
    var q := p[..1];
    assert q[..0] == [] && q[0] == p[0];
    assert DigitsValue(q) == DigitValue(p[0]);
  }

  lemma TwoDigitDay(p: string)
    requires |p| == 2 && AllDigits(p) && 1 <= DigitsValue(p) <= 31
    ensures DayPattern(p) && FieldValue(p) == DigitsValue(p)
  {
    TwoDigits(p);
  }

  lemma TwoDigitMonth(p: string)
    requires |p| == 2 && AllDigits(p) && 1 <= DigitsValue(p) <= 12
    ensures MonthPattern(p) && FieldValue(p) == DigitsValue(p)
  {
    TwoDigits(p);
  }

  lemma IsoPieces(d: Date)
    requires ValidDate(d)
    ensures Split(IsoFormat(d), '-') ==
      [ZeroPad(NatToString(d.year), 4), ZeroPad(NatToString(d.month), 2), ZeroPad(NatToString(d.day), 2)]
  {
    var y, m, dd := ZeroPad(NatToString(d.year), 4), ZeroPad(NatToString(d.month), 2), ZeroPad(NatToString(d.day), 2);
    NoDashInDigits(y);
    NoDashInDigits(m);
    NoDashInDigits(dd);
    assert Join([y, m, dd], "-") == IsoFormat(d) by {
      assert Join([m, dd], "-") == m + "-" + dd;
      assert [y, m, dd][1..] == [m, dd];
    }
    SplitJoin([y, m, dd], '-');
  }

  lemma NoDashInDigits(p: string)
    requires AllDigits(p)
    ensures '-' !in p && '|' !in p && 'l' !in p
  {
  }

  lemma {:induction false} NatToStringShort(n: nat, w: nat)
    requires w >= 1 && n < Pow10(w)
    ensures |NatToString(n)| <= w
  {
    if n >= 10 {
      NatToStringShort(n / 10, w - 1);
    }
  }

  function Pow10(w: nat): nat {
    if w == 0 then 1 else 10 * Pow10(w - 1)
  }

  lemma IsoFields(d: Date)
    requires ValidDate(d)
    ensures |ZeroPad(NatToString(d.year), 4)| == 4
    ensures |ZeroPad(NatToString(d.month), 2)| == 2
    ensures |ZeroPad(NatToString(d.day), 2)| == 2
  {
    NatToStringShort(d.year, 4);
    NatToStringShort(d.month, 2);
    NatToStringShort(d.day, 2);
  }

  lemma IsoChars(d: Date)
    requires ValidDate(d)
    ensures forall i :: 0 <= i < |IsoFormat(d)| ==> IsDigit(IsoFormat(d)[i]) || IsoFormat(d)[i] == '-'
    ensures |IsoFormat(d)| == 10
  {
    IsoFields(d);
  }

  lemma IsoClean(d: Date)
    requires ValidDate(d)
    ensures IsClean(IsoFormat(d))
    ensures '|' !in IsoFormat(d) && 'l' !in IsoFormat(d)
  {
    IsoChars(d);
  }

  /** The ISO text needs no clean-up: it has no whitespace, '|' or 'l'. */
  lemma IsoPrep(d: Date)
    requires ValidDate(d)
    ensures DatePrep(IsoFormat(d)) == IsoFormat(d)
  {
    var iso := IsoFormat(d);
    IsoClean(d);
    CleanTextFixed(iso);
    ReplaceCharAbsent(iso, '|', "");
    ReplaceCharAbsent(iso, 'l', "1");
    assert iso[0] != ' ' && iso[|iso| - 1] != ' ';
    StripSpaceFree(iso);
  }

  /** A day-first pattern never reads the four-digit year of an ISO date. */
  lemma IsoNotDayFirst(d: Date)
    requires ValidDate(d)
    ensures MatchFormat(IsoFormat(d), DateFormats[0]).None?
    ensures MatchFormat(IsoFormat(d), DateFormats[1]).None?
  {
    IsoPieces(d);
    IsoFields(d);
  }

  /** Reading an ISO date with "%Y-%m-%d" gives the date back. */
  lemma IsoThirdFormat(d: Date)
    requires ValidDate(d)
    ensures MatchFormat(IsoFormat(d), DateFormats[2]) == Some(d)
  {
    var y, m, dd := ZeroPad(NatToString(d.year), 4), ZeroPad(NatToString(d.month), 2), ZeroPad(NatToString(d.day), 2);
    IsoPieces(d);
    IsoFields(d);
    TwoDigitMonth(m);
    TwoDigitDay(dd);
    assert ReadField(FullYear, y) == Some(d.year);
    assert ReadField(MonthNumber, m) == Some(d.month);
    assert ReadField(DayOfMonth, dd) == Some(d.day);
    assert Assemble(DateFormats[2], d.year, d.month, d.day) == d;
  }

  /** Round trip: `_parse_date_flexible(date.isoformat())` gives the date back. */
  lemma DateIsoRoundTrip(d: Date)
    requires ValidDate(d)
    ensures DateFlexible(Some(IsoFormat(d))) == Some(d)
  {
    IsoPrep(d);
    IsoFirstFormat(d);
    assert IsoFormat(d) != "" by { IsoFields(d); }
  }

  lemma IsoFirstFormat(d: Date)
    requires ValidDate(d)
    ensures FirstFormatFrom(IsoFormat(d), 0) == Some(d)
  {
    IsoNotDayFirst(d);
    IsoThirdFormat(d);
    FirstFormatAt(IsoFormat(d), 0, 2);
  }

  /** A text with no whitespace, '|' or 'l' passes the clean-up unchanged. */
  lemma PrepNoOp(t: string)
    requires |t| > 0 && NoSpace(t) && '|' !in t && 'l' !in t
    ensures DatePrep(t) == t
  {
    CleanNoSpace(t);
    ReplaceCharAbsent(t, '|', "");
    ReplaceCharAbsent(t, 'l', "1");
    StripSpaceFree(t);
  }

  lemma Split3(a: string, b: string, c: string, sep: char)
    requires sep !in a && sep !in b && sep !in c
    ensures Split(a + [sep] + b + [sep] + c, sep) == [a, b, c]
  {
    assert Join([a, b, c], [sep]) == a + [sep] + (b + [sep] + c) by {
      assert [a, b, c][1..] == [b, c];
      assert Join([b, c], [sep]) == b + [sep] + c;
    }
    assert a + [sep] + (b + [sep] + c) == a + [sep] + b + [sep] + c;
    SplitJoin([a, b, c], sep);
  }

  lemma {:induction false} SplitAbsent(t: string, sep: char)
    requires sep !in t
    ensures Split(t, sep) == [t]
  {
    SplitFreePrefix(t, "", sep);
    assert t + "" == t;
  }

  /** The result is the date of the first format that accepts `t`, and there is none when no format does. */
  lemma {:induction false} FirstFormatFromFirst(t: string, i: nat)
    requires i <= |DateFormats|
    ensures var r := FirstFormatFrom(t, i);
      && (r.Some? ==> exists j :: i <= j < |DateFormats| && MatchFormat(t, DateFormats[j]) == r
                                && forall k :: i <= k < j ==> MatchFormat(t, DateFormats[k]).None?)
      && (r.None? ==> forall k :: i <= k < |DateFormats| ==> MatchFormat(t, DateFormats[k]).None?)
    decreases |DateFormats| - i
  {
    if i < |DateFormats| {
      var m := MatchFormat(t, DateFormats[i]);
      if m.None? {
        FirstFormatFromFirst(t, i + 1);
        var r := FirstFormatFrom(t, i + 1);
        assert FirstFormatFrom(t, i) == r;
        if r.Some? {
          var j :| i + 1 <= j < |DateFormats| && MatchFormat(t, DateFormats[j]) == r
                   && forall k :: i + 1 <= k < j ==> MatchFormat(t, DateFormats[k]).None?;
          assert forall k :: i <= k < j ==> MatchFormat(t, DateFormats[k]).None?;
        }
      }
    }
  }

  /** The first accepting format decides: when format `j` accepts `t` and no earlier one does, its date is the result. */
  lemma {:induction false} FirstFormatAt(t: string, i: nat, j: nat)
    requires i <= j < |DateFormats|
    requires MatchFormat(t, DateFormats[j]).Some?
    requires forall k :: i <= k < j ==> MatchFormat(t, DateFormats[k]).None?
    ensures FirstFormatFrom(t, i) == MatchFormat(t, DateFormats[j])
    decreases j - i
  {
    if i < j {
      FirstFormatAt(t, i + 1, j);
    }
  }

  /** The OCR repair turns the lower-case "l" of "Jul" into "1", so "01-Jul-24" is not read. */
  lemma JulyLowerCaseLost()
    ensures DateFlexible(Some("01-Jul-24")) == None
  {
    JulyRepaired("01-Jul-24", "01-Ju1-24");
    JulyRepairedUnread("01-Ju1-24");
  }

  lemma JulyOneForL(s: string, t: string)
    requires s == "01-Jul-24" && t == "01-Ju1-24"
    ensures ReplaceChar(s, 'l', "1") == t
  {
    var a, b := "01-Ju", "-24";
    assert s == a + ['l'] + b;
    ReplaceCharOnce(a, b, 'l', "1");
    assert t == a + "1" + b;
  }

  lemma JulyRepaired(s: string, t: string)
    requires s == "01-Jul-24" && t == "01-Ju1-24"
    ensures DatePrep(s) == t
  {
    CleanNoSpace(s);
    ReplaceCharAbsent(s, '|', "");
    JulyOneForL(s, t);
    StripSpaceFree(t);
  }

  lemma JulyRepairedUnread(t: string)
    requires t == "01-Ju1-24"
    ensures FirstFormatFrom(t, 0) == None
  {
    JulyDashUnread(t);
    SplitAbsent(t, '/');
    SplitAbsent(t, '.');
    assert forall k :: 3 <= k < |DateFormats| ==> MatchFormat(t, DateFormats[k]).None?;
    FirstFormatFromFirst(t, 0);
  }

  lemma JulyDashUnread(t: string)
    requires t == "01-Ju1-24"
    ensures forall k :: 0 <= k < 3 ==> MatchFormat(t, DateFormats[k]).None?
  {
    assert t == "01" + "-" + "Ju1" + "-" + "24";
    Split3("01", "Ju1", "24", '-');
    assert MonthOfAbbrev("Ju1") == 0;
  }

  /** An upper-case month abbreviation survives the repair: "01-JUL-24" is 1 July 2024. */
  lemma JulyUpperCaseRead()
    ensures DateFlexible(Some("01-JUL-24")) == Some(Date(2024, 7, 1))
  {
    PrepNoOp("01-JUL-24");
    JulyUpperFirst("01-JUL-24");
  }

  lemma JulyUpperFirst(t: string)
    requires t == "01-JUL-24"
    ensures FirstFormatFrom(t, 0) == Some(Date(2024, 7, 1))
  {
    JulyUpperMatch(t);
    FirstFormatAt(t, 0, 0);
  }

  lemma JulyUpperMatch(t: string)
    requires t == "01-JUL-24"
    ensures MatchFormat(t, DateFormats[0]) == Some(Date(2024, 7, 1))
  {
    assert t == "01" + "-" + "JUL" + "-" + "24";
    Split3("01", "JUL", "24", '-');
    assert MonthOfAbbrev("JUL") == 7;
    TwoDigits("01");
    TwoDigits("24");
  }

  /** Slash dates are month first: "01/02/03" is 2 January 2003. */
  lemma SlashIsMonthFirst(t: string)
    requires t == "01/02/03"
    ensures DateFlexible(Some(t)) == Some(Date(2003, 1, 2))
  {
    PrepNoOp(t);
    SlashFirstFormat(t);
  }

  lemma SlashFirstFormat(t: string)
    requires t == "01/02/03"
    ensures FirstFormatFrom(t, 0) == Some(Date(2003, 1, 2))
  {
    SlashNotDash(t);
    SlashMatch(t);
    FirstFormatAt(t, 0, 3);
  }

  lemma SlashNotDash(t: string)
    requires t == "01/02/03"
    ensures forall k :: 0 <= k < 3 ==> MatchFormat(t, DateFormats[k]).None?
  {
    SplitAbsent(t, '-');
  }

  lemma SlashMatch(t: string)
    requires t == "01/02/03"
    ensures MatchFormat(t, DateFormats[3]) == Some(Date(2003, 1, 2))
  {
    assert t == "01" + "/" + "02" + "/" + "03";
    Split3("01", "02", "03", '/');
    TwoDigits("01");
    TwoDigits("02");
    TwoDigits("03");
  }
}
