/**
 * Trade intervals: the text a trading pair gives as its sampling interval
 * ("15", "4H", "1D", "2 W"), the interval it denotes, and its conversion to
 * the minute/hour/day resolutions the market-data service offers.
 */
module TradeInterval {

  /** Go declares the unit as a string type, so any string is a unit; only the
      five constants below are named. */
  type Unit = string

  const Minute: Unit := ""
  const Hour: Unit := "H"
  const Day: Unit := "D"
  const Week: Unit := "W"
  const Month: Unit := "M"

  datatype Interval = Interval(num: int, unit: Unit)

  /** The largest value of Go's 64-bit `int`; strconv.Atoi refuses anything larger. */
  const MaxInt: int := 0x7fff_ffff_ffff_ffff

  // ---------------------------------------------------------------------------
  // Seconds and MinHourDay
  // ---------------------------------------------------------------------------

  /** The length of an interval in seconds. The switch has no case for Hour,
      nor for any unnamed unit, so both get the factor 0. */
  function Seconds(i: Interval): (secs: int)
    ensures secs % 60 == 0
    ensures secs == 0 <==> i.num == 0 || (i.unit != Minute && i.unit != Day && i.unit != Week && i.unit != Month)
  {
    var factor :=
      if i.unit == Minute then 60
      else if i.unit == Day then 60 * 60 * 24
      else if i.unit == Week then 60 * 60 * 24 * 7
      else if i.unit == Month then 60 * 60 * 24 * 30
      else 0;
    i.num * factor
  }

  /** The same interval expressed in minutes (below an hour), hours or days.
      An unnamed unit matches no case and yields Go's zero Interval. */
  function MinHourDay(i: Interval): (r: Interval)
    ensures r.unit == Minute || r.unit == Hour || r.unit == Day
  {
    if i.unit == Minute then
      if i.num < 60 then Interval(i.num, Minute) else Interval(i.num / 60, Hour)
    else if i.unit == Hour then Interval(i.num, Hour)
    else if i.unit == Day then Interval(i.num, Day)
    else if i.unit == Week then Interval(i.num * 7, Day)
    else if i.unit == Month then Interval(i.num * 30, Day)
    else Interval(0, Minute)
  }

  /** What MinHourDay does to each unit. */
  lemma MinHourDayByUnit(i: Interval)
    ensures i.unit == Minute && i.num < 60 ==> MinHourDay(i) == i
    ensures i.unit == Minute && i.num >= 60 ==> MinHourDay(i) == Interval(i.num / 60, Hour)
    ensures i.unit == Hour || i.unit == Day ==> MinHourDay(i) == i
    ensures i.unit == Week ==> MinHourDay(i) == Interval(7 * i.num, Day)
    ensures i.unit == Month ==> MinHourDay(i) == Interval(30 * i.num, Day)
  {
  }

  /** Converting twice changes nothing more than converting once. */
  lemma MinHourDayIdempotent(i: Interval)
    ensures MinHourDay(MinHourDay(i)) == MinHourDay(i)
  {
  }

  /** The conversion keeps the length in seconds wherever Seconds knows the
      resulting unit: days, weeks, months, and minute counts below an hour. */
  lemma MinHourDayKeepsSeconds(i: Interval)
    requires i.unit == Day || i.unit == Week || i.unit == Month || (i.unit == Minute && i.num < 60)
    ensures Seconds(MinHourDay(i)) == Seconds(i)
  {
  }

  /** Seconds has no Hour case: every hour interval is 0 seconds long, so a
      minute count of an hour or more loses its length under MinHourDay. */
  lemma SecondsOfHourIsZero(n: int)
    ensures Seconds(Interval(n, Hour)) == 0
    ensures n >= 60 ==> Seconds(MinHourDay(Interval(n, Minute))) == 0
  {
  }

  /** 90 minutes become one hour: the remainder of the division is dropped. */
  lemma NinetyMinutesIsOneHour()
    ensures MinHourDay(Interval(90, Minute)) == Interval(1, Hour)
  {
  }

  // ---------------------------------------------------------------------------
  // Characters and digit runs
  // ---------------------------------------------------------------------------

  predicate IsDigit(c: char) {
    '0' <= c <= '9'
  }

  /** The characters of the `\s` class of Go's regexp syntax: tab, newline,
      form feed, carriage return and space. */
  predicate IsSpace(c: char) {
    c == ' ' || c == '\t' || c == '\n' || c == '\r' || c as int == 12
  }

  predicate AllDigits(s: string) {
    forall k :: 0 <= k < |s| ==> IsDigit(s[k])
  }

  predicate AllSpaces(s: string) {
    forall k :: 0 <= k < |s| ==> IsSpace(s[k])
  }

  /** Upper-casing of one character. Only ASCII letters are mapped: no other
      character upper-cases to a digit, a `\s` character or one of D, W, M,
      which are all that Parse looks at. */
  function UpperChar(c: char): char {
    if 'a' <= c <= 'z' then (c as int - 32) as char else c
  }

  function ToUpper(s: string): (u: string)
    ensures |u| == |s|
  {
    seq(|s|, k requires 0 <= k < |s| => UpperChar(s[k]))
  }

  /** The digit run at the start of `s`: what `(\d+)?` captures there. */
  function LeadingDigits(s: string): (d: string)
    ensures |d| <= |s| && AllDigits(d)
  {
    if |s| > 0 && IsDigit(s[0]) then [s[0]] + LeadingDigits(s[1..]) else []
  }

  /** `s` after the whitespace at its start: what is left once `\s*` matched. */
  function SkipSpace(s: string): (r: string)
    ensures |r| <= |s|
  {
    if |s| > 0 && IsSpace(s[0]) then SkipSpace(s[1..]) else s
  }

  /** LeadingDigits is the longest prefix made only of digits. */
  lemma {:induction false} LeadingDigitsIsLongest(s: string)
    ensures LeadingDigits(s) == s[..|LeadingDigits(s)|]
    ensures |LeadingDigits(s)| == |s| || !IsDigit(s[|LeadingDigits(s)|])
  {
    if |s| > 0 && IsDigit(s[0]) {
      LeadingDigitsIsLongest(s[1..]);
    }
  }

  /** SkipSpace drops whitespace only, and all of it. */
  lemma {:induction false} SkipSpaceIsLongest(s: string)
    ensures SkipSpace(s) == s[|s| - |SkipSpace(s)|..]
    ensures AllSpaces(s[..|s| - |SkipSpace(s)|])
    ensures |SkipSpace(s)| == 0 || !IsSpace(SkipSpace(s)[0])
  {
    if |s| > 0 && IsSpace(s[0]) {
      SkipSpaceIsLongest(s[1..]);
      var k := |s| - |SkipSpace(s)|;
      assert s[..k] == [s[0]] + s[1..][..k - 1];
    }
  }

  function DigitValue(c: char): nat
    requires IsDigit(c)
  {
    c as int - '0' as int
  }

  /** The decimal value of a digit run, read left to right. */
  function DigitsValue(d: string): nat
    requires AllDigits(d)
  {
    if |d| == 0 then 0 else DigitsValue(d[..|d| - 1]) * 10 + DigitValue(d[|d| - 1])
  }

  /** What strconv.Atoi gives Parse for the digit group: its value, or the
      default 1 when the group is empty or its value does not fit an `int`. */
  function ParsedNum(d: string): nat
    requires AllDigits(d)
  {
    if |d| == 0 || DigitsValue(d) > MaxInt then 1 else DigitsValue(d)
  }

  // ---------------------------------------------------------------------------
  // Parse
  // ---------------------------------------------------------------------------

  /** The unit for the `([DWM])?` group matched at the start of `rest`: the
      source's lookup table maps "" to Minute and each letter to its unit. */
  function UnitAt(rest: string): (u: Unit)
    ensures u == Minute || u == Day || u == Week || u == Month
  {
    if |rest| == 0 then Minute
    else if rest[0] == 'D' then Day
    else if rest[0] == 'W' then Week
    else if rest[0] == 'M' then Month
    else Minute
  }

  /**
   * Parse reads the interval from the leftmost match of `(\d+)?\s*([DWM])?`
   * in the upper-cased text. Every part of the pattern is optional, so the
   * match starts at index 0: the leading digit run, then the whitespace
   * after it, then one optional unit letter; the rest of the text is ignored.
   */
  function Parse(s: string): (i: Interval)
    ensures i.unit == Minute || i.unit == Day || i.unit == Week || i.unit == Month
    ensures 0 <= i.num <= MaxInt
  {
    var u := ToUpper(s);
    var digits := LeadingDigits(u);
    var rest := SkipSpace(u[|digits|..]);
    Interval(ParsedNum(digits), UnitAt(rest))
  }

  lemma UnitAtLetter(u: Unit, tail: string)
    requires u == Day || u == Week || u == Month
    ensures UnitAt(u + tail) == u
  {
    assert (u + tail)[0] == u[0];
  }

  /** Parse read off from the pieces the pattern matches. */
  lemma ParseSteps(s: string, d: string, rest: string)
    requires LeadingDigits(ToUpper(s)) == d
    requires SkipSpace(ToUpper(s)[|d|..]) == rest
    ensures Parse(s) == Interval(ParsedNum(d), UnitAt(rest))
  {
  }

  // ---------------------------------------------------------------------------
  // Properties of Parse
  // ---------------------------------------------------------------------------

  lemma UpperCharIdempotent(c: char)
    ensures UpperChar(UpperChar(c)) == UpperChar(c)
    ensures IsDigit(UpperChar(c)) <==> IsDigit(c)
    ensures IsSpace(UpperChar(c)) <==> IsSpace(c)
  {
  }

  lemma ToUpperIdempotent(s: string)
    ensures ToUpper(ToUpper(s)) == ToUpper(s)
  {
    forall k | 0 <= k < |s| ensures ToUpper(ToUpper(s))[k] == ToUpper(s)[k] {
      UpperCharIdempotent(s[k]);
    }
  }

  lemma {:induction false} LeadingDigitsOfUpper(s: string)
    ensures LeadingDigits(ToUpper(s)) == LeadingDigits(s)
  {
    if |s| > 0 {
      UpperCharIdempotent(s[0]);
      assert ToUpper(s)[1..] == ToUpper(s[1..]);
      LeadingDigitsOfUpper(s[1..]);
    }
  }

  /** Parse upper-cases its input first, so case never matters: "15m" is
      fifteen months, not fifteen minutes. */
  lemma ParseIgnoresCase(s: string)
    ensures Parse(ToUpper(s)) == Parse(s)
  {
    ToUpperIdempotent(s);
  }

  /** Num is the value of the leading ASCII digit run, and 1 when there is
      none (or when it does not fit an `int`). */
  lemma ParseNum(s: string)
    ensures Parse(s).num == ParsedNum(LeadingDigits(s))
  {
    LeadingDigitsOfUpper(s);
  }

  /** The digit run that a run of digits followed by a non-digit starts with. */
  lemma {:induction false} LeadingDigitsOfConcat(d: string, rest: string)
    requires AllDigits(d)
    requires |rest| == 0 || !IsDigit(rest[0])
    ensures LeadingDigits(d + rest) == d
  {
    if |d| > 0 {
      assert (d + rest)[1..] == d[1..] + rest;
      LeadingDigitsOfConcat(d[1..], rest);
      assert [d[0]] + d[1..] == d;
    } else {
      assert d + rest == rest;
    }
  }

  lemma {:induction false} SkipSpaceOfConcat(ws: string, rest: string)
    requires AllSpaces(ws)
    requires |rest| == 0 || !IsSpace(rest[0])
    ensures SkipSpace(ws + rest) == rest
  {
    if |ws| > 0 {
      assert (ws + rest)[1..] == ws[1..] + rest;
      SkipSpaceOfConcat(ws[1..], rest);
    } else {
      assert ws + rest == rest;
    }
  }

  lemma ToUpperConcat(a: string, b: string)
    ensures ToUpper(a + b) == ToUpper(a) + ToUpper(b)
  {
  }

  /** Digits and whitespace are left alone by upper-casing. */
  lemma ToUpperKeeps(s: string)
    requires forall k :: 0 <= k < |s| ==> IsDigit(s[k]) || IsSpace(s[k]) || ('A' <= s[k] <= 'Z')
    ensures ToUpper(s) == s
  {
  }

  /**
   * Whitespace between the digits and the unit letter is accepted and text
   * after the letter is ignored: a digit run, spaces, a day/week/month
   * letter and any tail parse to the digit run's value and that unit.
   */
  lemma ParseDigitsSpacesLetter(d: string, ws: string, u: Unit, tail: string)
    requires AllDigits(d) && AllSpaces(ws)
    requires u == Day || u == Week || u == Month
    ensures Parse(d + ws + u + tail) == Interval(ParsedNum(d), u)
  {
    var s := d + ws + u + tail;
    var after := u + ToUpper(tail);
    var up := d + (ws + after);
    ToUpperKeeps(d + ws + u);
    ToUpperConcat(d + ws + u, tail);
    assert ToUpper(s) == up;
    LeadingDigitsOfConcat(d, ws + after);
    assert up[|d|..] == ws + after;
    SkipSpaceOfConcat(ws, after);
    UnitAtLetter(u, ToUpper(tail));
    ParseSteps(s, d, after);
  }

  /** A digit run followed by nothing but whitespace is a number of minutes. */
  lemma ParseDigitsOnly(d: string, ws: string)
    requires AllDigits(d) && AllSpaces(ws)
    ensures Parse(d + ws) == Interval(ParsedNum(d), Minute)
  {
    ToUpperKeeps(d + ws);
    LeadingDigitsOfConcat(d, ws);
    assert (d + ws)[|d|..] == ws + "";
    SkipSpaceOfConcat(ws, "");
  }

  // ---------------------------------------------------------------------------
  // Formatting, the inverse of Parse
  // ---------------------------------------------------------------------------

  function DigitChar(k: nat): (c: char)
    requires k < 10
    ensures IsDigit(c) && DigitValue(c) == k
  {
    ('0' as int + k) as char
  }

  /** The decimal digits of a natural number, most significant first. */
  function NatDigits(n: nat): (d: string)
    ensures |d| > 0 && AllDigits(d)
  {
    if n < 10 then [DigitChar(n)] else NatDigits(n / 10) + [DigitChar(n % 10)]
  }

  lemma {:induction false} DigitsValueOfNatDigits(n: nat)
    ensures DigitsValue(NatDigits(n)) == n
  {
    var d := NatDigits(n);
    if n >= 10 {
      assert d[..|d| - 1] == NatDigits(n / 10);
      DigitsValueOfNatDigits(n / 10);
    }
  }

  /** The interval text that names `i`: its digits and its unit letter. */
  function Format(i: Interval): string
    requires i.num >= 0
  {
    NatDigits(i.num) + i.unit
  }

  /** Parse inverts Format for every interval Parse can produce. */
  lemma ParseFormat(i: Interval)
    requires 0 <= i.num <= MaxInt
    requires i.unit == Minute || i.unit == Day || i.unit == Week || i.unit == Month
    ensures Parse(Format(i)) == i
  {
    DigitsValueOfNatDigits(i.num);
    if i.unit == Minute {
      ParseDigitsOnly(NatDigits(i.num), "");
      assert Format(i) == NatDigits(i.num) + "";
    } else {
      ParseDigitsSpacesLetter(NatDigits(i.num), "", i.unit, "");
      assert Format(i) == NatDigits(i.num) + "" + i.unit + "";
    }
  }

  /** The empty text is one minute; a lone unit letter counts one unit. */
  lemma ParseDefaults()
    ensures Parse("") == Interval(1, Minute)
    ensures Parse("D") == Interval(1, Day)
  {
    ParseDigitsOnly("", "");
    assert "" + "" == "";
    ParseDigitsSpacesLetter("", "", Day, "");
    assert "" + "" + Day + "" == "D";
  }

  /** Upper-casing a digit run followed by one more character. */
  lemma ToUpperDigitsThen(d: string, c: char, tail: string)
    requires AllDigits(d)
    ensures ToUpper(d + [c] + tail) == d + ([UpperChar(c)] + ToUpper(tail))
  {
    ToUpperKeeps(d);
    ToUpperConcat(d + [c], tail);
    ToUpperConcat(d, [c]);
  }

  /** Parse never yields Hour: an H after the number is not a unit letter
      and is ignored, so "4H" is four minutes. */
  lemma ParseHourLetterIsMinutes(n: nat, tail: string)
    requires n <= MaxInt
    ensures Parse(NatDigits(n) + "H" + tail) == Interval(n, Minute)
  {
    var d := NatDigits(n);
    var after := "H" + ToUpper(tail);
    DigitsValueOfNatDigits(n);
    ToUpperDigitsThen(d, 'H', tail);
    LeadingDigitsOfConcat(d, after);
    assert (d + after)[|d|..] == "" + after;
    SkipSpaceOfConcat("", after);
    ParseSteps(d + "H" + tail, d, after);
  }

  /** Lower-case letters count: "15m" is fifteen months, not minutes. */
  lemma ParseLowerCaseMonth(n: nat)
    requires n <= MaxInt
    ensures Parse(NatDigits(n) + "m") == Interval(n, Month)
  {
    var d := NatDigits(n);
    DigitsValueOfNatDigits(n);
    ParseDigitsSpacesLetter(d, "", Month, "");
    assert d + "" + Month + "" == d + "M";
    ToUpperDigitsThen(d, 'm', "");
    assert d + "m" + "" == d + "m";
    assert ToUpper("") == "";
    assert UpperChar('m') == 'M';
    assert ToUpper(d + "m") == d + "M";
    ParseIgnoresCase(d + "m");
  }

  /** Whitespace between the number and the letter is skipped. */
  lemma ParseSpacedWeek()
    ensures Parse("2 W") == Interval(2, Week)
  {
    var t := "2" + " " + Week + "";
    assert t == "2 W";
    ParseDigitsSpacesLetter("2", " ", Week, "");
    assert DigitsValue("2") == 2;
  }
}
