/**
 * The two date forms the expense handlers accept: `datetime.fromisoformat`
 * restricted to the full-date form `YYYY-MM-DD` (section 5.6 of RFC 3339),
 * tried first, and `datetime.strptime(s, "%d-%m-%Y")` as the fallback.
 */
module Dates {
  import opened Base

  datatype Date = Date(year: int, month: int, day: int)

  predicate IsLeapYear(y: int) {
    y % 4 == 0 && (y % 100 != 0 || y % 400 == 0)
  }

  function DaysInMonth(y: int, m: int): int
    requires 1 <= m <= 12
  {
    if m == 2 then (if IsLeapYear(y) then 29 else 28)
    else if m == 4 || m == 6 || m == 9 || m == 11 then 30
    else 31
  }

  /** A date Python's `date` can hold: proleptic Gregorian, years 1 to 9999. */
  predicate IsValid(d: Date) {
    1 <= d.year <= 9999 && 1 <= d.month <= 12 && 1 <= d.day <= DaysInMonth(d.year, d.month)
  }

  predicate IsDigit(c: char) { '0' <= c <= '9' }

  predicate AllDigits(s: string) { forall i :: 0 <= i < |s| ==> IsDigit(s[i]) }

  function DigitValue(c: char): nat
    requires IsDigit(c)
  {
    c as int - '0' as int
  }

  /** The decimal number a string of digits spells. */
  function Decimal(s: string): nat
    requires AllDigits(s)
  {
    if s == [] then 0 else Decimal(s[..|s| - 1]) * 10 + DigitValue(s[|s| - 1])
  }

  /** The date with these components, or None when the calendar has no such day. */
  function MakeDate(y: int, m: int, d: int): Option<Date> {
    if IsValid(Date(y, m, d)) then Some(Date(y, m, d)) else None
  }

  /** `YYYY-MM-DD`: exactly four, two and two ASCII digits separated by dashes. */
  function ParseIso(s: string): (r: Option<Date>)
    ensures r.Some? ==> IsValid(r.value)
  {
    if |s| == 10 && s[4] == '-' && s[7] == '-'
       && AllDigits(s[..4]) && AllDigits(s[5..7]) && AllDigits(s[8..])
    then MakeDate(Decimal(s[..4]), Decimal(s[5..7]), Decimal(s[8..]))
    else None
  }

  /** The position of the first `c` in `s`. */
  function IndexOf(s: string, c: char): (r: Option<nat>)
    ensures r.Some? ==> r.value < |s| && s[r.value] == c && c !in s[..r.value]
    ensures r.None? ==> c !in s
  {
    if s == [] then None
    else if s[0] == c then Some(0)
    else
      match IndexOf(s[1..], c)
      case None => None
      case Some(i) => assert s[1..][..i] == s[1..i + 1]; Some(i + 1)
  }

  /** strptime's `%d`: `3[01]|[12]\d|0[1-9]|[1-9]| [1-9]`. */
  predicate IsDayField(t: string)
    ensures IsDayField(t) ==> 1 <= |t| <= 2 && '-' !in t
  {
    || (|t| == 1 && '1' <= t[0] <= '9')
    || (|t| == 2 && t[0] == ' ' && '1' <= t[1] <= '9')
    || (|t| == 2 && t[0] == '0' && '1' <= t[1] <= '9')
    || (|t| == 2 && (t[0] == '1' || t[0] == '2') && IsDigit(t[1]))
    || (|t| == 2 && t[0] == '3' && (t[1] == '0' || t[1] == '1'))
  }

  /** strptime's `%m`: `1[0-2]|0[1-9]|[1-9]`. */
  predicate IsMonthField(t: string)
    ensures IsMonthField(t) ==> IsDayField(t)
  {
    || (|t| == 1 && '1' <= t[0] <= '9')
    || (|t| == 2 && t[0] == '0' && '1' <= t[1] <= '9')
    || (|t| == 2 && t[0] == '1' && '0' <= t[1] <= '2')
  }

  /** The number a `%d` or `%m` field spells (`int(" 7")` is 7). */
  function FieldValue(t: string): (n: nat)
    requires IsDayField(t)
    ensures 1 <= n <= 31
    ensures IsMonthField(t) ==> n <= 12
  {
    if t[0] == ' ' then DigitValue(t[1]) else DecimalOfShort(t); Decimal(t)
  }

  /** The value of a one- or two-digit string, digit by digit. */
  lemma DecimalOfShort(t: string)
    requires 1 <= |t| <= 2 && AllDigits(t)
    ensures Decimal(t) == if |t| == 1 then DigitValue(t[0]) else DigitValue(t[0]) * 10 + DigitValue(t[1])
  {
    assert t[..1][..0] == [];
    if |t| == 2 {
      assert t[..1] == [t[0]];
    }
  }

  /**
   * `%d-%m-%Y`: the day runs up to the first dash, the month up to the second,
   * and the year is exactly four digits ending the string.
   */
  function ParseDmy(s: string): (r: Option<Date>)
    ensures r.Some? ==> IsValid(r.value)
  {
    match IndexOf(s, '-')
    case None => None
    case Some(i) =>
      var rest := s[i + 1..];
      match IndexOf(rest, '-')
      case None => None
      case Some(j) =>
        DmyFields(s[..i], rest[..j], rest[j + 1..])
  }

  /** The date the three fields of a `%d-%m-%Y` string give, once split at the dashes. */
  function DmyFields(dd: string, mm: string, yyyy: string): Option<Date> {
    if IsDayField(dd) && IsMonthField(mm) && |yyyy| == 4 && AllDigits(yyyy)
    then MakeDate(Decimal(yyyy), FieldValue(mm), FieldValue(dd))
    else None
  }

  /** ISO first, then day-month-year; None is the handlers' 400. */
  function ParseDate(s: string): (r: Option<Date>)
    ensures r.Some? ==> IsValid(r.value)
    ensures ParseIso(s).Some? ==> r == ParseIso(s)
    ensures ParseIso(s).None? ==> r == ParseDmy(s)
  {
    match ParseIso(s)
    case Some(d) => Some(d)
    case None => ParseDmy(s)
  }

  // ----- Formatting, the inverse used to state the round trips -----

  function DigitChar(n: nat): (c: char)
    requires n < 10
    ensures IsDigit(c) && DigitValue(c) == n
  {
    ('0' as int + n) as char
  }

  function Pad2(n: nat): string
    requires n < 100
  {
    [DigitChar(n / 10), DigitChar(n % 10)]
  }

  function Pad4(n: nat): string
    requires n < 10000
  {
    [DigitChar(n / 1000), DigitChar(n / 100 % 10), DigitChar(n / 10 % 10), DigitChar(n % 10)]
  }

  function FormatIso(d: Date): string
    requires IsValid(d)
  {
    Pad4(d.year) + "-" + Pad2(d.month) + "-" + Pad2(d.day)
  }

  function FormatDmy(d: Date): string
    requires IsValid(d)
  {
    Pad2(d.day) + "-" + Pad2(d.month) + "-" + Pad4(d.year)
  }

  lemma Pad2Decimal(n: nat)
    requires n < 100
    ensures AllDigits(Pad2(n)) && Decimal(Pad2(n)) == n
  {
    var s := Pad2(n);
    assert s[..1] == [s[0]];
    assert Decimal(s[..1]) == n / 10 by { assert s[..1][..0] == []; }
  }

  lemma Pad4Decimal(n: nat)
    requires n < 10000
    ensures AllDigits(Pad4(n)) && Decimal(Pad4(n)) == n
  {
    var s := Pad4(n);
    assert s[..3][..2][..1][..0] == [];
    assert s[..3][..2][..1] == [s[0]];
    assert s[..3][..2] == [s[0], s[1]];
    assert s[..3] == [s[0], s[1], s[2]];
    assert Decimal(s[..3][..2][..1]) == n / 1000;
    assert Decimal(s[..3][..2]) == n / 100;
    assert Decimal(s[..3]) == n / 10;
  }

  /** A digit character is the character its value is written as. */
  lemma DigitCharOfValue(c: char)
    requires IsDigit(c)
    ensures DigitChar(DigitValue(c)) == c
  {
  }

  lemma Pad2OfDecimal(t: string)
    requires |t| == 2 && AllDigits(t)
    ensures Decimal(t) < 100 && Pad2(Decimal(t)) == t
  {
    assert t[..1][..0] == [];
    assert t[..1] == [t[0]];
    var a, b := DigitValue(t[0]), DigitValue(t[1]);
    assert Decimal(t[..1]) == a;
    assert Decimal(t) == a * 10 + b;
    assert (a * 10 + b) / 10 == a && (a * 10 + b) % 10 == b;
    DigitCharOfValue(t[0]);
    DigitCharOfValue(t[1]);
  }

  lemma Pad4OfDecimal(t: string)
    requires |t| == 4 && AllDigits(t)
    ensures Decimal(t) < 10000 && Pad4(Decimal(t)) == t
  {
    assert t[..3][..2][..1][..0] == [];
    assert t[..3][..2][..1] == [t[0]];
    assert t[..3][..2] == [t[0], t[1]];
    assert t[..3] == [t[0], t[1], t[2]];
    var a, b, c, d := DigitValue(t[0]), DigitValue(t[1]), DigitValue(t[2]), DigitValue(t[3]);
    var n := Decimal(t);
    assert Decimal(t[..3][..2][..1]) == a;
    assert Decimal(t[..3][..2]) == a * 10 + b;
    assert Decimal(t[..3]) == (a * 10 + b) * 10 + c;
    assert n == a * 1000 + b * 100 + c * 10 + d;
    assert n / 1000 == a;
    assert n / 100 == a * 10 + b;
    assert n / 100 % 10 == b;
    assert n / 10 == a * 100 + b * 10 + c;
    assert n / 10 % 10 == c;
    assert n % 10 == d;
    DigitCharOfValue(t[0]);
    DigitCharOfValue(t[1]);
    DigitCharOfValue(t[2]);
    DigitCharOfValue(t[3]);
  }

  /** Every valid date written `YYYY-MM-DD` parses back to itself. */
  lemma {:induction false} IsoRoundTrip(d: Date)
    requires IsValid(d)
    ensures ParseIso(FormatIso(d)) == Some(d)
    ensures ParseDate(FormatIso(d)) == Some(d)
  {
    var s := FormatIso(d);
    Pad4Decimal(d.year);
    Pad2Decimal(d.month);
    Pad2Decimal(d.day);
    assert s[..4] == Pad4(d.year);
    assert s[5..7] == Pad2(d.month);
    assert s[8..] == Pad2(d.day);
  }

  /** The ISO parser accepts only the canonical spelling of the date it returns. */
  lemma {:induction false} IsoCanonical(s: string)
    requires ParseIso(s).Some?
    ensures s == FormatIso(ParseIso(s).value)
  {
    Pad4OfDecimal(s[..4]);
    Pad2OfDecimal(s[5..7]);
    Pad2OfDecimal(s[8..]);
    assert s == s[..4] + "-" + s[5..7] + "-" + s[8..];
  }

  /** Every valid date written `DD-MM-YYYY` parses back to itself, also through the ISO-first parser. */
  lemma {:induction false} DmyRoundTrip(d: Date)
    requires IsValid(d)
    ensures ParseDmy(FormatDmy(d)) == Some(d)
    ensures ParseDate(FormatDmy(d)) == Some(d)
  {
    var s := FormatDmy(d);
    DmySpelled(d, Pad2(d.day), Pad2(d.month));
    assert ParseIso(s).None? by { assert s[4] != '-'; }
  }

  /** No string is accepted by both forms, so trying ISO first never changes a day-month-year reading. */
  lemma FormsAreDisjoint(s: string)
    ensures ParseIso(s).Some? ==> ParseDmy(s).None?
  {
    if ParseIso(s).Some? {
      assert '-' !in s[..4] by { assert AllDigits(s[..4]); }
      assert IndexOf(s, '-') == Some(4);
      assert !IsDayField(s[..4]);
    }
  }

  lemma Pad4Of2024()
    ensures Pad4(2024) == "2024"
  {
  }

  lemma Pad2Of(n: nat)
    requires n < 10
    ensures Pad2(n) == ['0', DigitChar(n)]
  {
  }

  lemma SpellingsOfSeventhOfMarch()
    ensures FormatIso(Date(2024, 3, 7)) == "2024-03-07"
    ensures FormatDmy(Date(2024, 3, 7)) == "07-03-2024"
  {
    Pad4Of2024();
    Pad2Of(3);
    Pad2Of(7);
  }

  /** Both spellings of 7 March 2024 give that date. */
  lemma SeventhOfMarch()
    ensures ParseDate("2024-03-07") == Some(Date(2024, 3, 7))
    ensures ParseDate("07-03-2024") == Some(Date(2024, 3, 7))
  {
    var d := Date(2024, 3, 7);
    IsoRoundTrip(d);
    DmyRoundTrip(d);
    SpellingsOfSeventhOfMarch();
  }

  lemma Decimal2024()
    ensures AllDigits("2024") && Decimal("2024") == 2024
  {
    Pad4Of2024();
    Pad4Decimal(2024);
  }

  /** strptime also takes one-digit days and months. */
  lemma OneDigitFields()
    ensures ParseDate("7-3-2024") == Some(Date(2024, 3, 7))
  {
    var s := "7-3-2024";
    assert IndexOf(s, '-') == Some(1);
    var rest := s[2..];
    assert rest == "3-2024";
    assert IndexOf(rest, '-') == Some(1);
    assert rest[2..] == "2024";
    Decimal2024();
    assert ParseIso(s).None?;
  }

  lemma TwoDigits(t: string)
    requires |t| == 2 && AllDigits(t)
    ensures Decimal(t) == DigitValue(t[0]) * 10 + DigitValue(t[1])
  {
    var h := t[..1];
    assert h[..0] == [] && h[0] == t[0];
    assert Decimal(h) == DigitValue(t[0]);
    assert t[..|t| - 1] == h;
  }

  lemma IndexOfDashAt2(s: string)
    requires |s| >= 3 && s[0] != '-' && s[1] != '-' && s[2] == '-'
    ensures IndexOf(s, '-') == Some(2)
  {
    assert s[1..][1..] == s[2..];
    assert IndexOf(s[2..], '-') == Some(0);
    assert IndexOf(s[1..], '-') == Some(1);
  }

  /** A `DD-MM-YYYY` string whose first two fields are digits splits at its two dashes. */
  lemma DmyShape(t: string)
    requires |t| == 10 && t[2] == '-' && t[5] == '-' && AllDigits(t[..2]) && AllDigits(t[3..5])
    ensures ParseDmy(t) == if IsDayField(t[..2]) && IsMonthField(t[3..5]) && AllDigits(t[6..])
                           then MakeDate(Decimal(t[6..]), FieldValue(t[3..5]), FieldValue(t[..2]))
                           else None
  {
    assert IsDigit(t[..2][0]) && IsDigit(t[..2][1]);
    IndexOfDashAt2(t);
    var rest := t[3..];
    assert IsDigit(t[3..5][0]) && IsDigit(t[3..5][1]);
    IndexOfDashAt2(rest);
    assert rest[..2] == t[3..5] && rest[3..] == t[6..];
  }

  /** A day the calendar lacks is refused: no year has a 31st of February. */
  lemma NoThirtyFirstOfFebruary(y: string)
    requires |y| == 4 && AllDigits(y)
    ensures ParseDate("31-02-" + y) == None
  {
    var t := "31-02-" + y;
    assert ParseIso(t).None? by { assert t[4] == '2'; }
    assert t[..2] == "31" && t[3..5] == "02" && t[6..] == y;
    TwoDigits(t[..2]);
    TwoDigits(t[3..5]);
    DmyShape(t);
  }

  lemma NoThirtiethOfFebruary(y: string)
    requires |y| == 4 && AllDigits(y)
    ensures ParseDate(y + "-02-30") == None
  {
    var u := y + "-02-30";
    assert u[..4] == y && u[5..7] == "02" && u[8..] == "30";
    TwoDigits(u[5..7]);
    TwoDigits(u[8..]);
    assert ParseIso(u) == MakeDate(Decimal(y), 2, 30);
    assert '-' !in u[..4] by { assert AllDigits(u[..4]); }
    assert IndexOf(u, '-') == Some(4);
    assert !IsDayField(u[..4]);
  }

  // ----- What an accepted day-month-year string means -----

  /** The spellings strptime's `%d` accepts for day `n`: two digits, and for n < 10 also one digit or a space and one digit. */
  function DaySpellings(n: nat): set<string>
    requires 1 <= n <= 31
  {
    {Pad2(n)} + if n < 10 then {[DigitChar(n)], [' ', DigitChar(n)]} else {}
  }

  /** The spellings strptime's `%m` accepts for month `n`: two digits, and for n < 10 also one digit. */
  function MonthSpellings(n: nat): set<string>
    requires 1 <= n <= 12
  {
    {Pad2(n)} + if n < 10 then {[DigitChar(n)]} else {}
  }

  /** A `%d` field is one of the spellings of the day it stands for. */
  lemma DayFieldSpells(t: string)
    requires IsDayField(t)
    ensures 1 <= FieldValue(t) <= 31 && t in DaySpellings(FieldValue(t))
  {
    if |t| == 1 {
      DecimalOfShort(t);
      DigitCharOfValue(t[0]);
      assert t == [DigitChar(FieldValue(t))];
    } else if t[0] == ' ' {
      DigitCharOfValue(t[1]);
      assert t == [' ', DigitChar(FieldValue(t))];
    } else {
      TwoDigits(t);
      Pad2OfDecimal(t);
    }
  }

  /** A `%m` field is one of the spellings of the month it stands for. */
  lemma MonthFieldSpells(t: string)
    requires IsMonthField(t)
    ensures 1 <= FieldValue(t) <= 12 && t in MonthSpellings(FieldValue(t))
  {
    if |t| == 1 {
      DecimalOfShort(t);
      DigitCharOfValue(t[0]);
      assert t == [DigitChar(FieldValue(t))];
    } else {
      TwoDigits(t);
      Pad2OfDecimal(t);
    }
  }

  /** Each spelling of a day is a `%d` field standing for that day. */
  lemma DaySpellingIsField(n: nat, t: string)
    requires 1 <= n <= 31 && t in DaySpellings(n)
    ensures IsDayField(t) && FieldValue(t) == n && '-' !in t
  {
    if t == Pad2(n) {
      Pad2Decimal(n);
      TwoDigits(t);
    } else if t == [DigitChar(n)] {
      assert t[..|t| - 1] == [];
      assert Decimal(t) == DigitValue(t[0]) == n;
      assert '1' <= t[0] <= '9';
    } else {
      assert t == [' ', DigitChar(n)];
    }
  }

  /** Each spelling of a month is a `%m` field standing for that month. */
  lemma MonthSpellingIsField(n: nat, t: string)
    requires 1 <= n <= 12 && t in MonthSpellings(n)
    ensures IsMonthField(t) && FieldValue(t) == n && '-' !in t
  {
    if t == Pad2(n) {
      Pad2Decimal(n);
      TwoDigits(t);
    } else {
      assert t == [DigitChar(n)];
      assert t[..|t| - 1] == [];
      assert Decimal(t) == DigitValue(t[0]) == n;
      assert '1' <= t[0] <= '9';
    }
  }

  /** The first dash of `a + "-" + b` is the one after `a` when `a` has none. */
  lemma {:induction false} IndexOfAfter(a: string, b: string)
    requires '-' !in a
    ensures IndexOf(a + "-" + b, '-') == Some(|a|)
    ensures (a + "-" + b)[..|a|] == a && (a + "-" + b)[|a| + 1..] == b
  {
    var s := a + "-" + b;
    assert s[..|a|] == a && s[|a| + 1..] == b;
    if a != [] {
      assert s[0] == a[0];
      assert s[1..] == a[1..] + "-" + b;
      IndexOfAfter(a[1..], b);
    }
  }

  /** An accepted string is its three fields joined by its first two dashes. */
  lemma DmyParts(s: string) returns (dd: string, mm: string, yyyy: string)
    requires ParseDmy(s).Some?
    ensures s == dd + "-" + (mm + "-" + yyyy) && ParseDmy(s) == DmyFields(dd, mm, yyyy)
  {
    var i := IndexOf(s, '-').value;
    var rest := s[i + 1..];
    var j := IndexOf(rest, '-').value;
    dd, mm, yyyy := s[..i], rest[..j], rest[j + 1..];
    JoinAtDash(rest, j);
    JoinAtDash(s, i);
  }

  lemma JoinAssoc(a: string, b: string, c: string)
    ensures a + "-" + (b + "-" + c) == a + "-" + b + "-" + c
  {
  }

  lemma JoinAtDash(s: string, i: nat)
    requires i < |s| && s[i] == '-'
    ensures s == s[..i] + "-" + s[i + 1..]
  {
  }

  /** Accepted fields are spellings of the date's day, month and year. */
  lemma FieldsSpell(dd: string, mm: string, yyyy: string)
    requires DmyFields(dd, mm, yyyy).Some?
    ensures var d := DmyFields(dd, mm, yyyy).value;
            dd in DaySpellings(d.day) && mm in MonthSpellings(d.month) && yyyy == Pad4(d.year)
  {
    DayFieldSpells(dd);
    MonthFieldSpells(mm);
    Pad4OfDecimal(yyyy);
  }

  /** An accepted string spells its date's day, month and year. */
  lemma DmyAccepted(s: string)
    requires ParseDmy(s).Some?
    ensures var d := ParseDmy(s).value;
            exists ds, ms :: ds in DaySpellings(d.day) && ms in MonthSpellings(d.month)
                             && s == ds + "-" + ms + "-" + Pad4(d.year)
  {
    var dd, mm, yyyy := DmyParts(s);
    FieldsSpell(dd, mm, yyyy);
    JoinAssoc(dd, mm, yyyy);
  }

  /** Fields without dashes, joined by dashes, are split back at those dashes. */
  lemma DmySplit(dd: string, mm: string, yyyy: string)
    requires '-' !in dd && '-' !in mm
    ensures ParseDmy(dd + "-" + mm + "-" + yyyy) == DmyFields(dd, mm, yyyy)
  {
    var rest := mm + "-" + yyyy;
    JoinAssoc(dd, mm, yyyy);
    IndexOfAfter(dd, rest);
    IndexOfAfter(mm, yyyy);
  }

  /** Every such spelling of a valid date is accepted as that date. */
  lemma DmySpelled(d: Date, ds: string, ms: string)
    requires IsValid(d) && ds in DaySpellings(d.day) && ms in MonthSpellings(d.month)
    ensures ParseDmy(ds + "-" + ms + "-" + Pad4(d.year)) == Some(d)
  {
    DaySpellingIsField(d.day, ds);
    MonthSpellingIsField(d.month, ms);
    Pad4Decimal(d.year);
    DmySplit(ds, ms, Pad4(d.year));
  }

  /**
   * The day-month-year parser returns `d` exactly for the strings that spell
   * a valid `d` as a `%d` spelling of its day, a dash, a `%m` spelling of its
   * month, a dash and its four-digit year.
   */
  lemma DmyMeaning(s: string, d: Date)
    ensures ParseDmy(s) == Some(d) <==>
              && IsValid(d)
              && exists ds, ms :: ds in DaySpellings(d.day) && ms in MonthSpellings(d.month)
                                  && s == ds + "-" + ms + "-" + Pad4(d.year)
  {
    if ParseDmy(s) == Some(d) {
      DmyAccepted(s);
    }
    if IsValid(d) && exists ds, ms :: ds in DaySpellings(d.day) && ms in MonthSpellings(d.month)
                                      && s == ds + "-" + ms + "-" + Pad4(d.year) {
      var ds, ms :| ds in DaySpellings(d.day) && ms in MonthSpellings(d.month)
                    && s == ds + "-" + ms + "-" + Pad4(d.year);
      DmySpelled(d, ds, ms);
    }
  }
}
