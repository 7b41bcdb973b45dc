/**
 * The date/time token resolver (`parseDateTime`). PHP's `strtotime` and the
 * host's `removeTimeFromTimestamp` are collaborators: the resolver only
 * decides WHICH request to make of them, and that decision is modelled
 * exactly. Every distinct request the source makes is one `Query`.
 */
module DateTime {
  import opened Wrappers
  import opened Seqs
  import opened Strings

  datatype Weekday = Monday | Tuesday | Wednesday | Thursday | Friday | Saturday | Sunday

  datatype Month = ThisMonth | NextMonth

  /** A request to `strtotime`. */
  datatype Query =
    | Now                               // "now"
    | Tomorrow                          // "tomorrow"
    | NextWeekday(weekday: Weekday)     // "next Monday", ...
    | MonthDay(month: Month, day: int)  // "<year>-<month>-<day>" in this or next month
    | DaysAhead(count: nat)             // "+<count> days"
    | Natural(text: string)             // the lower-cased token itself, the fallback

  /**
   * The clock facts one extraction sees, and the two collaborators:
   * `strtotime` (None for PHP's `false`) and `startOfDay`
   * (`removeTimeFromTimestamp`). Timestamps are opaque integers.
   */
  datatype Calendar = Calendar(
    today: int,
    daysThisMonth: int,
    daysNextMonth: int,
    strtotime: Query -> Option<int>,
    startOfDay: int -> int)

  function DaysIn(m: Month, cal: Calendar): int
  {
    match m
    case ThisMonth => cal.daysThisMonth
    case NextMonth => cal.daysNextMonth
  }

  /**
   * The keyword table, matched against the lower-cased token. Every keyword
   * starts with a letter, so no numeric or `+Nd` token is a keyword, and a
   * keyword asks for "now", "tomorrow" or a next weekday.
   */
  function KeywordQuery(p: string): (r: Option<Query>)
    ensures r.Some? ==> |p| > 0 && 'a' <= p[0] <= 'z'
    ensures r.Some? ==> r.value.Now? || r.value.Tomorrow? || r.value.NextWeekday?
  {
    if p == "now" then Some(Now)
    else if p == "tm" || p == "tom" || p == "tomorrow" then Some(Tomorrow)
    else if p == "mo" || p == "mon" || p == "monday" then Some(NextWeekday(Monday))
    else if p == "tu" || p == "tue" || p == "tuesday" then Some(NextWeekday(Tuesday))
    else if p == "we" || p == "wed" || p == "wednesday" then Some(NextWeekday(Wednesday))
    else if p == "th" || p == "thu" || p == "thursday" then Some(NextWeekday(Thursday))
    else if p == "fr" || p == "fri" || p == "friday" then Some(NextWeekday(Friday))
    else if p == "sa" || p == "sat" || p == "saturday" then Some(NextWeekday(Saturday))
    else if p == "su" || p == "sun" || p == "sunday" then Some(NextWeekday(Sunday))
    else None
  }

  /** The token without the one final line feed PCRE's `$` lets through. */
  function DropFinalNewline(p: string): (q: string)
    ensures q == p || p == q + "\n"
    ensures q != p <==> |p| > 0 && p[|p| - 1] == '\n'
  {
    if |p| > 0 && p[|p| - 1] == '\n' then p[..|p| - 1] else p
  }

  /** The token without its optional leading plus. */
  function DropPlus(q: string): string
  {
    if |q| > 0 && q[0] == '+' then q[1..] else q
  }

  /** `(\d+)d`: digits, then `d`; the value of the digits. */
  function DigitsThenD(body: string): Option<nat>
  {
    if |body| >= 2 && body[|body| - 1] == 'd' && IsDigits(body[..|body| - 1]) then
      Some(DigitsValue(body[..|body| - 1]))
    else None
  }

  /** The tokens `/^\+?(\d+)d$/` matches: optional plus, digits, `d`, optional final line feed. */
  function DaysToken(plus: bool, digits: string, newline: bool): string
  {
    (if plus then "+" else "") + digits + "d" + (if newline then "\n" else "")
  }

  /**
   * The pattern `/^\+?(\d+)d$/`: an optional plus, digits, and `d`. PCRE's `$`
   * also matches just before one final line feed. A match is a `DaysToken`, and
   * the offset is the value of its digits.
   */
  function DaysOffset(p: string): (r: Option<nat>)
    ensures r.Some? ==> |p| >= 2 && !IsNumeric(p)
  {
    var q := DropFinalNewline(p);
    var body := DropPlus(q);
    var r := DigitsThenD(body);
    if r.Some? then
      DaysOffsetEnds(p);
      r
    else r
  }

  /** A match ends in `d`, or in `d` and a line feed, so it is not numeric. */
  lemma DaysOffsetEnds(p: string)
    requires DigitsThenD(DropPlus(DropFinalNewline(p))).Some?
    ensures |p| >= 2 && (p[|p| - 1] == 'd' || p[|p| - 1] == '\n')
  {
    var q := DropFinalNewline(p);
    var body := DropPlus(q);
    assert q[|q| - 1] == body[|body| - 1] == 'd';
  }

  /**
   * Every match of the day-offset pattern is a `DaysToken`: an optional plus,
   * digits, `d` and an optional final line feed; the offset is the value of
   * the digits.
   */
  lemma DaysOffsetShape(p: string)
    requires DaysOffset(p).Some?
    ensures exists plus, digits, newline ::
              IsDigits(digits) && p == DaysToken(plus, digits, newline) && DaysOffset(p).value == DigitsValue(digits)
  {
    var q := DropFinalNewline(p);
    var body := DropPlus(q);
    var plus := |q| > 0 && q[0] == '+';
    var digits := body[..|body| - 1];
    DropFinalNewlineShape(p);
    DropPlusShape(q);
    DigitsThenDShape(body);
    DaysTokenParts(plus, digits, q != p);
  }

  lemma DropFinalNewlineShape(p: string)
    ensures p == DropFinalNewline(p) + (if DropFinalNewline(p) != p then "\n" else "")
  {
  }

  lemma DigitsThenDShape(body: string)
    requires DigitsThenD(body).Some?
    ensures var digits := body[..|body| - 1];
            body == digits + "d" && IsDigits(digits) && DigitsThenD(body) == Some(DigitsValue(digits))
  {
  }

  lemma DropPlusShape(q: string)
    ensures q == (if |q| > 0 && q[0] == '+' then "+" else "") + DropPlus(q)
  {
    if |q| > 0 && q[0] == '+' {
      assert q == "+" + q[1..];
    }
  }

  lemma DaysTokenParts(plus: bool, digits: string, newline: bool)
    ensures DaysToken(plus, digits, newline) == ((if plus then "+" else "") + (digits + "d")) + (if newline then "\n" else "")
  {
  }

  /** A numeric day of month: this month if it has not passed yet, else next month. */
  function DayOfMonth(dom: int, cal: Calendar): (r: Option<Query>)
    ensures r.Some? <==> 1 <= dom <= 31 && dom <= DaysIn(if dom >= cal.today then ThisMonth else NextMonth, cal)
    ensures r.Some? ==> r.value.MonthDay? && r.value.day == dom && (r.value.month == ThisMonth <==> dom >= cal.today)
  {
    if dom < 1 || dom > 31 then None
    else if dom >= cal.today then
      if dom > cal.daysThisMonth then None else Some(MonthDay(ThisMonth, dom))
    else
      if dom > cal.daysNextMonth then None else Some(MonthDay(NextMonth, dom))
  }

  /**
   * The strategy decision of `parseDateTime`: which request to make of
   * `strtotime`, or None when the token is rejected before any request.
   */
  function DateQuery(parameter: string, cal: Calendar): (r: Option<Query>)
    ensures r.None? ==> IsNumeric(Lower(parameter))
    ensures r.Some? && r.value.DaysAhead? ==>
              KeywordQuery(Lower(parameter)).None? && DaysOffset(Lower(parameter)) == Some(r.value.count)
    ensures r.Some? && r.value.Natural? ==>
              r.value.text == Lower(parameter) && KeywordQuery(Lower(parameter)).None?
              && !IsNumeric(Lower(parameter)) && DaysOffset(Lower(parameter)).None?
    ensures r.Some? && r.value.MonthDay? ==>
              var d := r.value.day;
              1 <= d <= 31 && d <= DaysIn(r.value.month, cal)
              && (r.value.month == ThisMonth <==> d >= cal.today)
  {
    var p := Lower(parameter);
    match KeywordQuery(p)
    case Some(q) => Some(q)
    case None =>
      if IsNumeric(p) then DayOfMonth(IntVal(p), cal)
      else
        match DaysOffset(p)
        case Some(n) => Some(DaysAhead(n))
        case None => Some(Natural(p))
  }

  /** `parseDateTime`: a timestamp, or None for PHP's `false`. */
  function ParseDateTime(parameter: string, cal: Calendar): (r: Option<int>)
    ensures r.Some? <==> DateQuery(parameter, cal).Some? && cal.strtotime(DateQuery(parameter, cal).value).Some?
    ensures r.Some? && DateQuery(parameter, cal).value.DaysAhead? ==>
              r.value == cal.startOfDay(cal.strtotime(DateQuery(parameter, cal).value).value)
    ensures r.Some? && !DateQuery(parameter, cal).value.DaysAhead? ==>
              r == cal.strtotime(DateQuery(parameter, cal).value)
  {
    match DateQuery(parameter, cal)
    case None => None
    case Some(q) =>
      match cal.strtotime(q)
      case None => None
      case Some(t) => if q.DaysAhead? then Some(cal.startOfDay(t)) else Some(t)
  }

  /** The token is matched after lower-casing: case never matters. */
  lemma CaseInsensitive(parameter: string, cal: Calendar)
    ensures DateQuery(parameter, cal) == DateQuery(Lower(parameter), cal)
  {
    LowerIdempotent(parameter);
  }

  /** Keywords win over every other strategy. */
  lemma KeywordsFirst(parameter: string, cal: Calendar)
    requires KeywordQuery(Lower(parameter)).Some?
    ensures DateQuery(parameter, cal) == KeywordQuery(Lower(parameter))
  {
  }

  /**
   * The day-of-month rule, both directions: a numeric token is accepted
   * exactly when it is a day 1..31 that exists in the month chosen by
   * comparing it with today.
   */
  lemma DayOfMonthRule(parameter: string, cal: Calendar)
    requires IsNumeric(Lower(parameter))
    ensures var dom := IntVal(Lower(parameter));
            var m := if dom >= cal.today then ThisMonth else NextMonth;
            DateQuery(parameter, cal) ==
              (if 1 <= dom <= 31 && dom <= DaysIn(m, cal) then Some(MonthDay(m, dom)) else None)
  {
  }

  /**
   * A day that has not passed and does not exist in this month fails; it is
   * not moved to next month.
   */
  lemma NoRolloverOfShortMonth(cal: Calendar)
    requires cal.daysThisMonth == 30 && cal.today <= 30
    ensures DateQuery("31", cal).None?
  {
    assert Lower("31") == "31";
    assert IsDigits("31");
    assert DigitsValue("31") == 31 by { assert Front("31") == "3"; assert Front("3") == ""; }
    assert IntVal("31") == 31;
  }

  /** Conversely, every `DaysToken` matches the day-offset pattern, with its digits' value. */
  lemma DaysOffsetOfDigits(plus: bool, digits: string, newline: bool)
    requires IsDigits(digits)
    ensures DaysOffset(DaysToken(plus, digits, newline)) == Some(DigitsValue(digits))
  {
    DaysTokenWithoutFeed(plus, digits, newline);
    assert (digits + "d")[0] == digits[0];
    DropPlusOf(plus, digits + "d");
    DigitsThenDOf(digits);
  }

  lemma DaysTokenWithoutFeed(plus: bool, digits: string, newline: bool)
    requires IsDigits(digits)
    ensures DropFinalNewline(DaysToken(plus, digits, newline)) == (if plus then "+" else "") + (digits + "d")
  {
    var q := (if plus then "+" else "") + (digits + "d");
    DaysTokenParts(plus, digits, newline);
    assert q[|q| - 1] == 'd';
    DropFinalNewlineOf(q, newline);
  }

  lemma DigitsThenDOf(digits: string)
    requires IsDigits(digits)
    ensures DigitsThenD(digits + "d") == Some(DigitsValue(digits))
  {
    var body := digits + "d";
    assert body[..|body| - 1] == digits;
  }

  lemma DropFinalNewlineOf(q: string, newline: bool)
    requires |q| > 0 && q[|q| - 1] != '\n'
    ensures DropFinalNewline(q + (if newline then "\n" else "")) == q
  {
    if newline {
      assert (q + "\n")[..|q|] == q;
    } else {
      assert q + "" == q;
    }
  }

  lemma DropPlusOf(plus: bool, body: string)
    requires |body| > 0 && body[0] != '+'
    ensures DropPlus((if plus then "+" else "") + body) == body
  {
    if plus {
      assert ("+" + body)[1..] == body;
    } else {
      assert "" + body == body;
    }
  }

  /** A day-offset token that is no keyword asks for that many days ahead, at the start of the day. */
  lemma DaysStrategy(parameter: string, n: nat, cal: Calendar)
    requires KeywordQuery(Lower(parameter)).None? && DaysOffset(Lower(parameter)) == Some(n)
    ensures DateQuery(parameter, cal) == Some(DaysAhead(n))
    ensures ParseDateTime(parameter, cal) ==
              (if cal.strtotime(DaysAhead(n)).Some? then Some(cal.startOfDay(cal.strtotime(DaysAhead(n)).value)) else None)
  {
  }

  /** A `DaysToken` without line feed is its own lower-cased form and no keyword. */
  lemma DaysTokenIsNoKeyword(plus: bool, digits: string)
    requires IsDigits(digits)
    ensures Lower(DaysToken(plus, digits, false)) == DaysToken(plus, digits, false)
    ensures KeywordQuery(DaysToken(plus, digits, false)).None?
  {
    var p := DaysToken(plus, digits, false);
    assert forall i :: 0 <= i < |p| ==> p[i] == '+' || p[i] == 'd' || IsDigit(p[i]);
    assert p[0] == '+' || IsDigit(p[0]);
  }

  /**
   * The fallback: a token that is no keyword, not numeric and no `+Nd` is
   * passed, lower-cased, to `strtotime`, whose answer is the result.
   */
  lemma Fallback(parameter: string, cal: Calendar)
    requires KeywordQuery(Lower(parameter)).None? && !IsNumeric(Lower(parameter))
    requires DaysOffset(Lower(parameter)).None?
    ensures DateQuery(parameter, cal) == Some(Natural(Lower(parameter)))
    ensures ParseDateTime(parameter, cal) == cal.strtotime(Natural(Lower(parameter)))
  {
  }

  /**
   * `Nd` and `+Nd` ask for N days ahead, and the result is the start of that
   * day, or None when `strtotime` fails.
   */
  lemma RelativeDays(n: nat, plus: bool, cal: Calendar)
    ensures var p := (if plus then "+" else "") + NatToString(n) + "d";
            DateQuery(p, cal) == Some(DaysAhead(n))
            && ParseDateTime(p, cal) ==
                 (if cal.strtotime(DaysAhead(n)).Some? then Some(cal.startOfDay(cal.strtotime(DaysAhead(n)).value)) else None)
  {
    var digits := NatToString(n);
    var p := (if plus then "+" else "") + digits + "d";
    assert p == DaysToken(plus, digits, false) by {
      assert p + "" == p;
    }
    DaysTokenIsNoKeyword(plus, digits);
    DaysOffsetOfDigits(plus, digits, false);
    DaysStrategy(p, n, cal);
  }
}
