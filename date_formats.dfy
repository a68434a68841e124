/** The two patterns the client checks dates against with `re.match`:
    DATE_FORMAT and UPDATED_TIME_FORMAT (cli/__init__.py:67-68, repeated
    verbatim at cli/client.py:62-63).

    The first half follows each pattern alternative by alternative. The
    second half describes the accepted strings independently, as the
    renderings of calendar and clock fields that lie in range, and the
    lemmas show that the two halves agree. */
module DateFormats {
  import opened Values

  // ---------------------------------------------------------------------
  // The patterns as written
  // ---------------------------------------------------------------------

  /** `\s` of a byte-string pattern: space, tab, newline, carriage return,
      vertical tab, form feed. */
  predicate IsSpace(c: char) {
    c == ' ' || c == '\t' || c == '\n' || c == '\r' || c == '\U{000B}' || c == '\U{000C}'
  }

  /** `0[1-9]|1[0-2]` */
  predicate MonthField(f: string) {
    |f| == 2 && ((f[0] == '0' && '1' <= f[1] <= '9') || (f[0] == '1' && '0' <= f[1] <= '2'))
  }

  /** `0[1-9]|[1-2][0-9]|3[0-1]` */
  predicate DayField(f: string) {
    |f| == 2 &&
    ((f[0] == '0' && '1' <= f[1] <= '9') || ('1' <= f[0] <= '2' && IsDigit(f[1])) || (f[0] == '3' && '0' <= f[1] <= '1'))
  }

  /** `0[1-9]|1[0-9]|2[0-4]` */
  predicate HourField(f: string) {
    |f| == 2 &&
    ((f[0] == '0' && '1' <= f[1] <= '9') || (f[0] == '1' && IsDigit(f[1])) || (f[0] == '2' && '0' <= f[1] <= '4'))
  }

  /** `[1-5]?[0-9]|60`, the minute and the second field. */
  predicate ClockField(f: string) {
    (|f| == 1 && IsDigit(f[0])) ||
    (|f| == 2 && (('1' <= f[0] <= '5' && IsDigit(f[1])) || f == "60"))
  }

  /** `[0-9]{4}-(month)-(day)` matched at the start of `s`. */
  predicate DatePrefix(s: string) {
    |s| >= 10 && AllDigits(s[..4]) && s[4] == '-' && MonthField(s[5..7]) && s[7] == '-' && DayField(s[8..10])
  }

  /** `$` after the first `n` characters: the end of `s`, or a newline that
      is the last character of `s`. */
  predicate EndsAt(s: string, n: nat) {
    |s| == n || (|s| == n + 1 && s[n] == '\n')
  }

  /** `re.match(DATE_FORMAT, s)` succeeds. */
  predicate MatchesDate(s: string) {
    DatePrefix(s) && EndsAt(s, 10)
  }

  /** `(minute):(second)$` from position 14 on, with an `m`-character minute
      and a `k`-character second. */
  predicate ClockFrom(s: string, m: nat, k: nat) {
    |s| >= 15 + m + k && ClockField(s[14..14 + m]) && s[14 + m] == ':' &&
    ClockField(s[15 + m..15 + m + k]) && EndsAt(s, 15 + m + k)
  }

  /** `re.match(UPDATED_TIME_FORMAT, s)` succeeds: the optional leading digit of
      each clock field is a choice the matcher may backtrack over. */
  predicate MatchesUpdatedTime(s: string) {
    DatePrefix(s) && |s| >= 14 && IsSpace(s[10]) && HourField(s[11..13]) && s[13] == ':' &&
    (ClockFrom(s, 1, 1) || ClockFrom(s, 1, 2) || ClockFrom(s, 2, 1) || ClockFrom(s, 2, 2))
  }

  // ---------------------------------------------------------------------
  // The accepted strings, described by the values of their fields
  // ---------------------------------------------------------------------

  /** Two digits whose value lies in `lo..hi`. */
  predicate TwoDigitsIn(f: string, lo: nat, hi: nat) {
    |f| == 2 && AllDigits(f) && lo <= NumeralValue(f) <= hi
  }

  datatype Date = Date(year: nat, month: nat, day: nat)

  /** Each field in its range on its own: the pattern does not know month lengths. */
  predicate ValidDate(d: Date) {
    d.year < 10000 && 1 <= d.month <= 12 && 1 <= d.day <= 31
  }

  datatype Stamp = Stamp(date: Date, separator: char, hour: nat, minute: nat, second: nat)

  predicate ValidStamp(t: Stamp) {
    ValidDate(t.date) && IsSpace(t.separator) && 1 <= t.hour <= 24 && t.minute <= 60 && t.second <= 60
  }

  function Pad2(n: nat): string
    requires n < 100
  {
    [DigitChar(n / 10), DigitChar(n % 10)]
  }

  function Pad4(n: nat): string
    requires n < 10000
  {
    Pad2(n / 100) + Pad2(n % 100)
  }

  /** The date as YYYY-MM-DD, every field zero-padded. */
  function FormatDate(d: Date): string
    requires ValidDate(d)
  {
    Pad4(d.year) + "-" + Pad2(d.month) + "-" + Pad2(d.day)
  }

  /** The date, a whitespace character, the hour zero-padded to two digits,
      and the minute and the second as `str()` writes them. */
  function FormatStamp(t: Stamp): string
    requires ValidStamp(t)
  {
    FormatDate(t.date) + [t.separator] + Pad2(t.hour) + ":" + NatToString(t.minute) + ":" + NatToString(t.second)
  }

  /** The one character `$` lets through after a match. */
  function Ending(newline: bool): string {
    if newline then "\n" else ""
  }

  // ---------------------------------------------------------------------
  // Agreement of the two descriptions, field by field
  // ---------------------------------------------------------------------

  lemma TwoDigitValue(f: string)
    requires |f| == 2 && AllDigits(f)
    ensures NumeralValue(f) == 10 * DigitValue(f[0]) + DigitValue(f[1])
  {
    var init := f[..1];
    assert f[..|f| - 1] == init && init[..0] == [] && init[0] == f[0];
    assert NumeralValue(init) == DigitValue(f[0]);
  }

  /** A month is two digits worth 1 to 12. */
  lemma MonthFieldExactly(f: string)
    ensures MonthField(f) <==> TwoDigitsIn(f, 1, 12)
  {
    if |f| == 2 && AllDigits(f) { TwoDigitValue(f); }
  }

  /** A day is two digits worth 1 to 31, whatever the month. */
  lemma DayFieldExactly(f: string)
    ensures DayField(f) <==> TwoDigitsIn(f, 1, 31)
  {
    if |f| == 2 && AllDigits(f) { TwoDigitValue(f); }
  }

  /** An hour is two digits worth 1 to 24: "00" is rejected and "24" accepted. */
  lemma HourFieldExactly(f: string)
    ensures HourField(f) <==> TwoDigitsIn(f, 1, 24)
  {
    if |f| == 2 && AllDigits(f) { TwoDigitValue(f); }
  }

  /** A canonical numeral of two or more digits is worth at least 10. */
  lemma {:induction false} NumeralAtLeastTen(s: string)
    requires Canonical(s) && |s| >= 2
    ensures NumeralValue(s) >= 10
  {
    var init := s[..|s| - 1];
    assert init[0] == s[0];
    if |s| == 2 {
      TwoDigitValue(s);
    } else {
      NumeralAtLeastTen(init);
    }
  }

  /** A minute or second is exactly what `str()` writes for a number from 0
      to 60: one digit, or two digits without a leading zero. "05" and "00"
      are rejected. */
  lemma ClockFieldExactly(f: string)
    ensures ClockField(f) <==> Canonical(f) && NumeralValue(f) <= 60
  {
    if |f| == 1 && IsDigit(f[0]) {
      assert f[..0] == [];
    } else if |f| == 2 && AllDigits(f) {
      TwoDigitValue(f);
    } else if Canonical(f) && |f| > 2 {
      var init := f[..|f| - 1];
      assert init[0] == f[0];
      NumeralAtLeastTen(init);
    }
  }

  lemma Pad2Value(n: nat)
    requires n < 100
    ensures AllDigits(Pad2(n)) && NumeralValue(Pad2(n)) == n
  {
    TwoDigitValue(Pad2(n));
  }

  lemma Pad2Read(f: string)
    requires |f| == 2 && AllDigits(f)
    ensures NumeralValue(f) < 100 && Pad2(NumeralValue(f)) == f
  {
    TwoDigitValue(f);
  }

  lemma FourDigitValue(f: string)
    requires |f| == 4 && AllDigits(f)
    ensures NumeralValue(f) == 100 * NumeralValue(f[..2]) + NumeralValue(f[2..])
  {
    var hi, lo, three := f[..2], f[2..], f[..3];
    assert f[..|f| - 1] == three && three[..|three| - 1] == hi && three[2] == lo[0] && f[3] == lo[1];
    TwoDigitValue(lo);
  }

  lemma DivMod100(hi: nat, lo: nat)
    requires lo < 100
    ensures (100 * hi + lo) / 100 == hi && (100 * hi + lo) % 100 == lo
  {
  }

  lemma Pad4Read(f: string)
    requires |f| == 4 && AllDigits(f)
    ensures NumeralValue(f) < 10000 && Pad4(NumeralValue(f)) == f
  {
    var hi, lo := f[..2], f[2..];
    Pad2Read(hi);
    Pad2Read(lo);
    FourDigitValue(f);
    DivMod100(NumeralValue(hi), NumeralValue(lo));
    assert f == hi + lo;
  }

  lemma Pad4Value(n: nat)
    requires n < 10000
    ensures AllDigits(Pad4(n)) && NumeralValue(Pad4(n)) == n
  {
    var f := Pad4(n);
    Pad2Value(n / 100);
    Pad2Value(n % 100);
    Pad4Read(f);
    Pad2Read(f[..2]);
    Pad2Read(f[2..]);
    assert f[..2] == Pad2(n / 100) && f[2..] == Pad2(n % 100);
  }

  // ---------------------------------------------------------------------
  // Agreement of the two descriptions, whole strings
  // ---------------------------------------------------------------------

  /** The date a string that starts like a date denotes. */
  function ReadDate(s: string): Date
    requires DatePrefix(s)
  {
    Date(NumeralValue(s[..4]), NumeralValue(s[5..7]), NumeralValue(s[8..10]))
  }

  /** The date part of a matched string is the rendering of an in-range date. */
  lemma DatePrefixRead(s: string)
    requires DatePrefix(s)
    ensures ValidDate(ReadDate(s)) && s[..10] == FormatDate(ReadDate(s))
  {
    MonthFieldExactly(s[5..7]);
    DayFieldExactly(s[8..10]);
    Pad4Read(s[..4]);
    Pad2Read(s[5..7]);
    Pad2Read(s[8..10]);
    assert s[..10] == s[..4] + "-" + s[5..7] + "-" + s[8..10];
  }

  /** Every in-range date renders to a string that starts like a date. */
  lemma FormatDateIsPrefix(d: Date, rest: string)
    requires ValidDate(d)
    ensures DatePrefix(FormatDate(d) + rest) && (FormatDate(d) + rest)[..10] == FormatDate(d)
  {
    var s := FormatDate(d) + rest;
    Pad4Value(d.year);
    Pad2Value(d.month);
    Pad2Value(d.day);
    MonthFieldExactly(Pad2(d.month));
    DayFieldExactly(Pad2(d.day));
    assert s[..4] == Pad4(d.year) && s[5..7] == Pad2(d.month) && s[8..10] == Pad2(d.day);
  }

  /** DATE_FORMAT accepts exactly the renderings of dates whose fields are in
      range, with at most one trailing newline; there is no calendar check. */
  lemma {:induction false} DateFormatExactly(s: string)
    ensures MatchesDate(s) <==> exists d: Date, nl: bool :: ValidDate(d) && s == FormatDate(d) + Ending(nl)
  {
    if MatchesDate(s) {
      DatePrefixRead(s);
      var nl := |s| == 11;
      assert s == s[..10] + Ending(nl);
    }
    if exists d: Date, nl: bool :: ValidDate(d) && s == FormatDate(d) + Ending(nl) {
      var d: Date, nl: bool :| ValidDate(d) && s == FormatDate(d) + Ending(nl);
      FormatDateIsPrefix(d, Ending(nl));
    }
  }

  /** The lengths of the minute and the second of a matched string: the
      position of the second ':' tells how long the minute is, and the
      second runs to the end or to the final newline. */
  function ClockSplit(s: string): (mk: (nat, nat))
    requires MatchesUpdatedTime(s)
    ensures ClockFrom(s, mk.0, mk.1)
  {
    var m := if s[15] == ':' then 1 else 2;
    (m, |s| - 15 - m - (if s[|s| - 1] == '\n' then 1 else 0))
  }

  /** The stamp a string that matches UPDATED_TIME_FORMAT denotes. */
  function ReadStamp(s: string): Stamp
    requires MatchesUpdatedTime(s)
  {
    var mk := ClockSplit(s);
    var m, k := mk.0, mk.1;
    Stamp(ReadDate(s), s[10], NumeralValue(s[11..13]), NumeralValue(s[14..14 + m]), NumeralValue(s[15 + m..15 + m + k]))
  }

  /** The minute of the clock part, read as a number. */
  lemma MinuteRead(s: string, m: nat, k: nat)
    requires ClockFrom(s, m, k)
    ensures Canonical(s[14..14 + m]) && NumeralValue(s[14..14 + m]) <= 60
  {
    ClockFieldExactly(s[14..14 + m]);
  }

  /** The second of the clock part, read as a number. */
  lemma SecondRead(s: string, m: nat, k: nat)
    requires ClockFrom(s, m, k)
    ensures Canonical(s[15 + m..15 + m + k]) && NumeralValue(s[15 + m..15 + m + k]) <= 60
  {
    ClockFieldExactly(s[15 + m..15 + m + k]);
  }

  /** The clock part after the hour, read as two numbers. */
  lemma ClockFromRead(s: string, m: nat, k: nat)
    requires ClockFrom(s, m, k)
    ensures NumeralValue(s[14..14 + m]) <= 60 && NumeralValue(s[15 + m..15 + m + k]) <= 60
    ensures s[14..] == NatToString(NumeralValue(s[14..14 + m])) + ":" + NatToString(NumeralValue(s[15 + m..15 + m + k]))
                       + Ending(|s| == 16 + m + k)
  {
    MinuteRead(s, m, k);
    SecondRead(s, m, k);
    CanonicalNumeral(s[14..14 + m]);
    CanonicalNumeral(s[15 + m..15 + m + k]);
    ClockLayout(s, m, k);
  }

  /** The clock part after the hour, taken apart at its fixed positions. */
  lemma ClockLayout(s: string, m: nat, k: nat)
    requires ClockFrom(s, m, k)
    ensures s[14..] == s[14..14 + m] + ":" + s[15 + m..15 + m + k] + Ending(|s| == 16 + m + k)
  {
    assert s[15 + m + k..] == Ending(|s| == 16 + m + k);
    assert s[14..] == s[14..14 + m] + [s[14 + m]] + s[15 + m..15 + m + k] + s[15 + m + k..];
  }

  /** A stamp string taken apart, and put back together, at its fixed positions. */
  lemma StampLayout(s: string, date: string, sep: char, hour: string, mm: string, ss: string, ending: string)
    requires |date| == 10 && |hour| == 2
    ensures s == date + [sep] + hour + ":" + mm + ":" + ss + ending <==>
            |s| >= 14 && s[..10] == date && s[10] == sep && s[11..13] == hour && s[13] == ':' && s[14..] == mm + ":" + ss + ending
  {
    if |s| >= 14 {
      assert s == s[..10] + [s[10]] + s[11..13] + [s[13]] + s[14..];
    }
  }

  /** A string whose first ten characters render an in-range date starts like a date. */
  lemma DatePrefixOf(s: string, d: Date)
    requires ValidDate(d) && |s| >= 10 && s[..10] == FormatDate(d)
    ensures DatePrefix(s)
  {
    FormatDateIsPrefix(d, s[10..]);
    assert s == FormatDate(d) + s[10..];
  }

  /** The date and the hour of a matched string, each the rendering of the
      field ReadStamp takes from it. */
  lemma DateHourRead(s: string)
    requires MatchesUpdatedTime(s)
    ensures ValidDate(ReadStamp(s).date) && IsSpace(ReadStamp(s).separator) && 1 <= ReadStamp(s).hour <= 24
    ensures s[..10] == FormatDate(ReadStamp(s).date) && s[10] == ReadStamp(s).separator
    ensures s[11..13] == Pad2(ReadStamp(s).hour)
  {
    var t := ReadStamp(s);
    assert t.date == ReadDate(s) && t.separator == s[10] && t.hour == NumeralValue(s[11..13]);
    DatePrefixRead(s);
    HourFieldExactly(s[11..13]);
    Pad2Read(s[11..13]);
  }

  /** The minute and the second of a matched string, as `str()` writes them. */
  lemma MinuteSecondRead(s: string)
    requires MatchesUpdatedTime(s)
    ensures ReadStamp(s).minute <= 60 && ReadStamp(s).second <= 60
    ensures s[14..] == NatToString(ReadStamp(s).minute) + ":" + NatToString(ReadStamp(s).second) + Ending(s[|s| - 1] == '\n')
  {
    var mk := ClockSplit(s);
    ClockFromRead(s, mk.0, mk.1);
  }

  /** Every matched string is the rendering of an in-range stamp, followed by
      at most one newline. */
  lemma UpdatedTimeRead(s: string)
    requires MatchesUpdatedTime(s)
    ensures ValidStamp(ReadStamp(s))
    ensures s == FormatStamp(ReadStamp(s)) + Ending(s[|s| - 1] == '\n')
  {
    var t := ReadStamp(s);
    DateHourRead(s);
    MinuteSecondRead(s);
    StampLayout(s, FormatDate(t.date), t.separator, Pad2(t.hour), NatToString(t.minute), NatToString(t.second),
                Ending(s[|s| - 1] == '\n'));
  }

  lemma SliceOfSlice(s: string, a: nat, i: nat, j: nat)
    requires a + j <= |s| && i <= j
    ensures s[a..][i..j] == s[a + i..a + j]
  {
  }

  /** The clock part of a rendered stamp matches the minute and second fields. */
  lemma ClockAccepted(s: string, mm: string, ss: string, nl: bool)
    requires |s| >= 14 && s[14..] == mm + ":" + ss + Ending(nl)
    requires ClockField(mm) && ClockField(ss)
    ensures ClockFrom(s, |mm|, |ss|)
  {
    var tail := s[14..];
    assert s[14..14 + |mm|] == mm by {
      assert tail[..|mm|] == mm;
      SliceOfSlice(s, 14, 0, |mm|);
    }
    assert s[15 + |mm|..15 + |mm| + |ss|] == ss by {
      assert tail[|mm| + 1..|mm| + 1 + |ss|] == ss;
      SliceOfSlice(s, 14, |mm| + 1, |mm| + 1 + |ss|);
    }
    assert s[14 + |mm|] == tail[|mm|] == ':';
    assert |s| == 15 + |mm| + |ss| + |Ending(nl)|;
    assert nl ==> s[15 + |mm| + |ss|] == '\n';
  }

  /** Every in-range stamp, with or without one trailing newline, matches. */
  lemma UpdatedTimeAccepted(t: Stamp, nl: bool)
    requires ValidStamp(t)
    ensures MatchesUpdatedTime(FormatStamp(t) + Ending(nl))
  {
    var s := FormatStamp(t) + Ending(nl);
    var mm, ss := NatToString(t.minute), NatToString(t.second);
    StampLayout(s, FormatDate(t.date), t.separator, Pad2(t.hour), mm, ss, Ending(nl));
    assert DatePrefix(s) by {
      DatePrefixOf(s, t.date);
    }
    assert HourField(s[11..13]) by {
      Pad2Value(t.hour);
      HourFieldExactly(Pad2(t.hour));
    }
    assert ClockField(mm) && ClockField(ss) && 1 <= |mm| <= 2 && 1 <= |ss| <= 2 by {
      ClockFieldExactly(mm);
      ClockFieldExactly(ss);
    }
    ClockAccepted(s, mm, ss, nl);
  }

  /** UPDATED_TIME_FORMAT accepts exactly the renderings of in-range stamps,
      with at most one trailing newline. */
  lemma {:induction false} UpdatedTimeFormatExactly(s: string)
    ensures MatchesUpdatedTime(s) <==> exists t: Stamp, nl: bool :: ValidStamp(t) && s == FormatStamp(t) + Ending(nl)
  {
    if MatchesUpdatedTime(s) {
      UpdatedTimeRead(s);
    }
    if exists t: Stamp, nl: bool :: ValidStamp(t) && s == FormatStamp(t) + Ending(nl) {
      var t: Stamp, nl: bool :| ValidStamp(t) && s == FormatStamp(t) + Ending(nl);
      UpdatedTimeAccepted(t, nl);
    }
  }

  /** The examples the two patterns are known by. */
  lemma DateExamples()
    ensures MatchesDate("2024-02-30") && MatchesDate("2024-02-29")
    ensures !MatchesDate("2024-13-01") && !MatchesDate("2024-00-10") && !MatchesDate("2024-1-01")
  {
  }

  /** Hour 24 and minute and second 60 are accepted. */
  lemma UpdatedTimeLatestExample()
    ensures MatchesUpdatedTime("2024-01-01 24:60:60")
  {
    var a := "2024-01-01 24:60:60";
    assert a[..4] == "2024" && AllDigits("2024");
    assert a[5..7] == "01" && a[8..10] == "01";
    assert a[11..13] == "24" && a[14..16] == "60" && a[17..19] == "60";
    assert ClockFrom(a, 2, 2);
  }

  /** Single-digit minutes and seconds are accepted. */
  lemma UpdatedTimeShortExample()
    ensures MatchesUpdatedTime("2024-01-01 10:5:0")
  {
    var b := "2024-01-01 10:5:0";
    assert b[..4] == "2024" && AllDigits("2024");
    assert b[5..7] == "01" && b[8..10] == "01";
    assert b[11..13] == "10" && b[14..15] == "5" && b[16..17] == "0";
    assert ClockFrom(b, 1, 1);
  }

  /** Hour 00 is rejected, and so are zero-padded minutes and seconds. */
  lemma UpdatedTimeRejectedExamples()
    ensures !MatchesUpdatedTime("2024-01-01 00:10:10")
    ensures !MatchesUpdatedTime("2024-01-01 10:05:00")
  {
    var a, b := "2024-01-01 00:10:10", "2024-01-01 10:05:00";
    assert a[11..13] == "00";
    assert b[15] != ':' && b[14..16] == "05";
  }
}
