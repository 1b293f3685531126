/** The handful of Go string operations the gatekeeping code relies on:
    strings.HasPrefix, strings.Split on a one-character separator (with
    strings.Join as its inverse), decimal formatting of integers (strconv
    and fmt's %d) and time.Duration's String form for whole seconds. */
module Strings {
  import opened Wrappers

  /** strings.HasPrefix: `p` is an initial segment of `s`. */
  predicate HasPrefix(s: string, p: string) {
    |p| <= |s| && s[..|p|] == p
  }

  /** strings.Join with a one-character separator. */
  function Join(parts: seq<string>, sep: char): string {
    if |parts| == 0 then ""
    else if |parts| == 1 then parts[0]
    else parts[0] + [sep] + Join(parts[1..], sep)
  }

  /** strings.Split with a one-character separator: every occurrence of
      `sep` cuts, so adjacent separators yield empty fields and the empty
      string yields one empty field. Joining the fields gives `s` back. */
  function Split(s: string, sep: char): (r: seq<string>)
    ensures |r| >= 1
    ensures forall i :: 0 <= i < |r| ==> sep !in r[i]
    ensures Join(r, sep) == s
  {
    if |s| == 0 then [""]
    else
      var rest := Split(s[1..], sep);
      if s[0] == sep then
        assert ([""] + rest)[1..] == rest;
        [""] + rest
      else
        var head := [s[0]] + rest[0];
        assert Join(rest, sep) == s[1..];
        assert ([head] + rest[1..])[1..] == rest[1..];
        [head] + rest[1..]
  }

  /** A field without the separator, followed by the separator, is split
      off as the first field and the rest is split on its own. */
  lemma {:induction false} SplitAfterField(p: string, t: string, sep: char)
    requires sep !in p
    ensures Split(p + [sep] + t, sep) == [p] + Split(t, sep)
  {
    if |p| == 0 {
      assert p + [sep] + t == [sep] + t;
      assert ([sep] + t)[1..] == t;
    } else {
      var s := p + [sep] + t;
      SplitAfterField(p[1..], t, sep);
      assert s[1..] == p[1..] + [sep] + t;
      assert s[0] == p[0] && p[0] != sep;
      var rest := Split(s[1..], sep);
      assert rest == [p[1..]] + Split(t, sep);
      assert [s[0]] + rest[0] == p;
      assert rest[1..] == Split(t, sep);
    }
  }

  /** The first field of a split is the longest prefix free of the
      separator: it is a prefix, and it is either all of `s` or is
      followed in `s` by the separator. */
  lemma {:induction false} SplitFirstField(s: string, sep: char)
    ensures HasPrefix(s, Split(s, sep)[0])
    ensures sep !in Split(s, sep)[0]
    ensures Split(s, sep)[0] == s || s[|Split(s, sep)[0]|] == sep
  {
    if |s| > 0 {
      SplitFirstField(s[1..], sep);
      var rest := Split(s[1..], sep);
      if s[0] != sep {
        assert s == [s[0]] + s[1..];
      }
    }
  }

  /** The value of one decimal digit character (0 for any other character,
      which no caller passes). */
  function DigitValue(c: char): nat
  {
    if '0' <= c <= '9' then (c as int) - ('0' as int) else 0
  }

  function DigitChar(d: nat): (c: char)
    requires d < 10
    ensures '0' <= c <= '9' && DigitValue(c) == d
  {
    (('0' as int) + d) as char
  }

  predicate IsDigits(s: string) {
    forall i :: 0 <= i < |s| ==> '0' <= s[i] <= '9'
  }

  /** Reads a string of decimal digits back as a number. */
  function ParseDigits(s: string): nat
  {
    if |s| == 0 then 0 else ParseDigits(s[..|s| - 1]) * 10 + DigitValue(s[|s| - 1])
  }

  /** Decimal rendering of a natural number, as strconv.FormatInt(n, 10)
      and fmt's %d print it: digits only, no leading zero, and reading it
      back gives `n`. */
  function NatToString(n: nat): (s: string)
    ensures |s| >= 1 && IsDigits(s)
    ensures |s| > 1 ==> s[0] != '0'
    ensures ParseDigits(s) == n
  {
    if n < 10 then [DigitChar(n)]
    else
      var prefix := NatToString(n / 10);
      var s := prefix + [DigitChar(n % 10)];
      assert s[..|s| - 1] == prefix;
      s
  }

  /** Decimal rendering of a (possibly negative) integer. */
  function IntToString(i: int): (s: string)
    ensures i >= 0 ==> s == NatToString(i)
    ensures i < 0 ==> s == "-" + NatToString(-i)
  {
    if i < 0 then "-" + NatToString(-i) else NatToString(i)
  }

  /** Two numbers with the same decimal rendering are equal. */
  lemma NatToStringInjective(m: nat, n: nat)
    requires NatToString(m) == NatToString(n)
    ensures m == n
  {
    assert ParseDigits(NatToString(m)) == m;
  }

  /** A decimal numeral as NatToString prints one: at least one digit and
      no leading zero. */
  predicate Numeral(d: string) {
    |d| >= 1 && IsDigits(d) && (|d| > 1 ==> d[0] != '0')
  }

  /** A numeral whose first digit is not '0' denotes a positive number. */
  lemma {:induction false} ParseDigitsPositive(d: string)
    requires |d| >= 1 && IsDigits(d) && d[0] != '0'
    ensures ParseDigits(d) >= 1
  {
    if |d| > 1 {
      ParseDigitsPositive(d[..|d| - 1]);
    }
  }

  /** Every numeral is the rendering of the number it denotes. */
  lemma {:induction false} NumeralRoundTrip(d: string)
    requires Numeral(d)
    ensures NatToString(ParseDigits(d)) == d
  {
    var n := ParseDigits(d);
    if |d| > 1 {
      var prefix := d[..|d| - 1];
      ParseDigitsPositive(prefix);
      NumeralRoundTrip(prefix);
      assert n / 10 == ParseDigits(prefix) && n % 10 == DigitValue(d[|d| - 1]);
      assert d == prefix + [d[|d| - 1]];
    }
  }

  /** The length of the longest prefix of decimal digits. */
  function DigitRun(s: string): (n: nat)
    ensures n <= |s|
  {
    if |s| > 0 && '0' <= s[0] <= '9' then 1 + DigitRun(s[1..]) else 0
  }

  /** Every character before the digit run's end is a digit, and the one at
      it, if any, is not. */
  lemma {:induction false} DigitRunEnds(s: string)
    ensures forall i :: 0 <= i < DigitRun(s) ==> '0' <= s[i] <= '9'
    ensures DigitRun(s) == |s| || !('0' <= s[DigitRun(s)] <= '9')
  {
    if |s| > 0 && '0' <= s[0] <= '9' {
      DigitRunEnds(s[1..]);
      assert forall i :: 1 <= i < DigitRun(s) ==> s[i] == s[1..][i - 1];
    }
  }

  /** The field at the head of `s`: the numeral there (the longest run of
      digits, at least one digit and no leading zero), the unit letter
      after it, and the rest of the string. */
  function Lead(s: string): Option<(string, char, string)>
  {
    var n := DigitRun(s);
    if 1 <= n < |s| && (n > 1 ==> s[0] != '0') then Some((s[..n], s[n], s[n + 1..])) else None
  }

  /** A numeral and a unit letter make the field at the head. */
  lemma LeadOf(a: string, u: char, rest: string)
    requires Numeral(a) && !('0' <= u <= '9')
    ensures Lead(a + ([u] + rest)) == Some((a, u, rest))
  {
    var s := a + ([u] + rest);
    DigitRunEnds(s);
    assert forall i :: 0 <= i < |a| ==> s[i] == a[i];
    assert s[|a|] == u;
    assert DigitRun(s) == |a|;
    assert s[..|a|] == a && s[|a| + 1..] == rest;
  }

  /** What Lead accepts is a numeral, a unit letter and the rest. */
  lemma LeadForm(s: string)
    requires Lead(s).Some?
    ensures Numeral(Lead(s).value.0)
    ensures s == Lead(s).value.0 + ([Lead(s).value.1] + Lead(s).value.2)
  {
    var n := DigitRun(s);
    DigitRunEnds(s);
    assert s == s[..n] + ([s[n]] + s[n + 1..]);
  }

  /** A numeral of a field that follows another: one digit, or two digits
      starting with 1 to 5, i.e. a value below 60. */
  predicate Sexagesimal(d: string) {
    |d| == 1 || (|d| == 2 && '1' <= d[0] <= '5')
  }

  /** The value of a one- or two-digit numeral. */
  function SmallValue(d: string): nat
    requires |d| == 1 || |d| == 2
  {
    if |d| == 1 then DigitValue(d[0]) else 10 * DigitValue(d[0]) + DigitValue(d[1])
  }

  /** A number below 60 prints as a numeral of a following field, whose
      value is that number. */
  lemma SmallNumeral(x: nat)
    requires x < 60
    ensures Sexagesimal(NatToString(x)) && SmallValue(NatToString(x)) == x
  {
    if x >= 10 {
      assert NatToString(x) == NatToString(x / 10) + [DigitChar(x % 10)];
      assert NatToString(x / 10) == [DigitChar(x / 10)];
    }
  }

  /** A numeral of a following field is the rendering of its value, which
      is below 60. */
  lemma SmallRoundTrip(d: string)
    requires Numeral(d) && Sexagesimal(d)
    ensures SmallValue(d) < 60 && NatToString(SmallValue(d)) == d
  {
    NumeralRoundTrip(d);
    if |d| == 2 {
      assert d[..1] == [d[0]];
      assert ParseDigits(d) == ParseDigits([d[0]]) * 10 + DigitValue(d[1]);
    }
    assert ParseDigits(d) == SmallValue(d);
  }

  /** Only zero prints as "0". */
  lemma ZeroNumeral(n: nat)
    ensures NatToString(n) == "0" <==> n == 0
  {
    if NatToString(n) == "0" {
      assert ParseDigits("0") == 0;
    }
  }

  /** "<x>s" with x below 60 and nothing after it. */
  function ReadSeconds(s: string): Option<nat>
  {
    var f := Lead(s);
    if f.Some? && f.value.1 == 's' && f.value.2 == "" && Sexagesimal(f.value.0) then Some(SmallValue(f.value.0))
    else None
  }

  /** "<m>m<x>s" with both fields below 60; a leading minutes field is
      never zero. */
  function ReadMinutes(s: string, leading: bool): Option<nat>
  {
    var f := Lead(s);
    if f.Some? && f.value.1 == 'm' && Sexagesimal(f.value.0) && (leading ==> f.value.0 != "0")
       && ReadSeconds(f.value.2).Some?
    then Some(60 * SmallValue(f.value.0) + ReadSeconds(f.value.2).value)
    else None
  }

  /** The hours numeral `d` and the minutes text after it: the hours field
      is never zero. */
  function ReadHours(d: string, rest: string): Option<nat>
  {
    if d != "0" && ReadMinutes(rest, false).Some? then
      Some(3600 * ParseDigits(d) + ReadMinutes(rest, false).value)
    else None
  }

  /** Reads back a duration written as time.Duration's String method writes
      a whole number of seconds: "<s>s", "<m>m<s>s" or "<h>h<m>m<s>s", each
      field a numeral, the leading field never zero, and a field that follows
      another below 60. Any other string, such as "60s", "0m5s" or "1h5s",
      is none of these renderings and reads as None. */
  function ReadDuration(s: string): Option<nat>
  {
    var f := Lead(s);
    if f.Some? && f.value.1 == 'h' then ReadHours(f.value.0, f.value.2)
    else if f.Some? && f.value.1 == 'm' then ReadMinutes(s, true)
    else ReadSeconds(s)
  }

  /** The hours, minutes and seconds of a duration: the fields are below
      60 where another field precedes them, and they make up the duration
      again. */
  lemma Units(secs: nat)
    ensures secs / 60 % 60 < 60 && secs % 60 < 60
    ensures 60 <= secs < 3600 ==> 0 < secs / 60 < 60
    ensures 3600 <= secs ==> 0 < secs / 3600
    ensures secs == 60 * (secs / 60) + secs % 60
    ensures secs == 3600 * (secs / 3600) + 60 * (secs / 60 % 60) + secs % 60
  {
    var q := secs / 60;
    assert secs == 60 * q + secs % 60;
    assert q == 60 * (q / 60) + q % 60;
    assert q / 60 == secs / 3600;
  }

  /** A sum of hours, minutes below 60 and seconds below 60 divides back into them. */
  lemma UnitsOf(h: nat, m: nat, x: nat)
    requires m < 60 && x < 60
    ensures (3600 * h + 60 * m + x) / 3600 == h
    ensures (3600 * h + 60 * m + x) / 60 == 60 * h + m
    ensures (3600 * h + 60 * m + x) / 60 % 60 == m
    ensures (3600 * h + 60 * m + x) % 60 == x
  {
    var v := 3600 * h + 60 * m + x;
    assert v == 60 * (60 * h + m) + x;
    assert v / 60 == 60 * h + m;
  }

  /** Minutes and seconds below 60 divide back into them. */
  lemma MinuteUnits(m: nat, x: nat)
    requires m < 60 && x < 60
    ensures (60 * m + x) / 60 == m && (60 * m + x) % 60 == x
  {
    UnitsOf(0, m, x);
    assert 3600 * 0 + 60 * m + x == 60 * m + x;
  }

  /** The seconds field "<x>s". */
  function SecondsText(x: nat): string {
    NatToString(x) + "s"
  }

  /** The minutes and seconds fields "<m>m<x>s". */
  function MinutesText(m: nat, x: nat): string {
    NatToString(m) + ("m" + SecondsText(x))
  }

  /** The hours, minutes and seconds fields "<h>h<m>m<x>s". */
  function HoursText(h: nat, m: nat, x: nat): string {
    NatToString(h) + ("h" + MinutesText(m, x))
  }

  /** A numeral below 60 followed by 's' reads as that many seconds, alone
      or as a whole duration. */
  lemma SecondsReads(c: string)
    requires Numeral(c) && Sexagesimal(c)
    ensures ReadSeconds(c + "s") == Some(SmallValue(c))
    ensures ReadDuration(c + "s") == Some(SmallValue(c))
  {
    assert c + "s" == c + (['s'] + "");
    LeadOf(c, 's', "");
  }

  /** A minutes field below 60 followed by a seconds text reads as the
      minutes and the seconds together, except that a leading minutes field
      may not be zero; a leading one that is not zero is the whole duration. */
  lemma MinutesReads(b: string, rest: string, leading: bool)
    requires Numeral(b) && Sexagesimal(b) && ReadSeconds(rest).Some?
    ensures ReadMinutes(b + ("m" + rest), leading)
      == if leading && b == "0" then None else Some(60 * SmallValue(b) + ReadSeconds(rest).value)
    ensures b != "0" ==> ReadDuration(b + ("m" + rest)) == ReadMinutes(b + ("m" + rest), true)
  {
    assert b + ("m" + rest) == b + (['m'] + rest);
    LeadOf(b, 'm', rest);
  }

  /** A non-zero hours field followed by a minutes text reads as the hours
      and the minutes together. */
  lemma HoursReads(a: string, rest: string, h: nat, v: nat)
    requires Numeral(a) && a != "0" && ParseDigits(a) == h && ReadMinutes(rest, false) == Some(v)
    ensures ReadDuration(a + ("h" + rest)) == Some(3600 * h + v)
  {
    assert a + ("h" + rest) == a + (['h'] + rest);
    LeadOf(a, 'h', rest);
    assert ReadDuration(a + ("h" + rest)) == ReadHours(a, rest);
  }

  /** A seconds text below 60 reads back as its seconds, alone or as a
      whole duration. */
  lemma SecondsTextReads(x: nat)
    requires x < 60
    ensures ReadSeconds(SecondsText(x)) == Some(x)
    ensures ReadDuration(SecondsText(x)) == Some(x)
  {
    SmallNumeral(x);
    SecondsReads(NatToString(x));
  }

  /** A minutes text reads back as its seconds, except that a leading
      minutes field may not be zero; a non-zero one is a whole duration. */
  lemma MinutesTextReads(m: nat, x: nat, leading: bool)
    requires m < 60 && x < 60
    ensures ReadMinutes(MinutesText(m, x), leading) == if leading && m == 0 then None else Some(60 * m + x)
    ensures m > 0 ==> ReadDuration(MinutesText(m, x)) == Some(60 * m + x)
  {
    SecondsTextReads(x);
    SmallNumeral(m);
    ZeroNumeral(m);
    MinutesReads(NatToString(m), SecondsText(x), leading);
    MinutesReads(NatToString(m), SecondsText(x), true);
  }

  /** An hours text reads back as its seconds. */
  lemma HoursTextReads(h: nat, m: nat, x: nat)
    requires 0 < h && m < 60 && x < 60
    ensures ReadDuration(HoursText(h, m, x)) == Some(3600 * h + 60 * m + x)
  {
    var a, rest := NatToString(h), MinutesText(m, x);
    assert HoursText(h, m, x) == a + ("h" + rest);
    MinutesTextReads(m, x, false);
    ZeroNumeral(h);
    HoursReads(a, rest, h, 60 * m + x);
  }

  /** time.Duration's String method for a whole number of seconds: "0s",
      "45s", "1m0s", "1h0m0s"; hours and minutes appear only when the
      duration reaches them. Reading the text back gives the duration, so
      the minutes and seconds fields are below 60 and no leading unit is
      zero. */
  function DurationString(secs: nat): string
  {
    if secs < 60 then SecondsText(secs)
    else if secs < 3600 then MinutesText(secs / 60, secs % 60)
    else HoursText(secs / 3600, secs / 60 % 60, secs % 60)
  }

  /** Reading a rendered duration back gives the duration, so the minutes
      and seconds fields are below 60 and no leading unit is zero. */
  lemma DurationReads(secs: nat)
    ensures ReadDuration(DurationString(secs)) == Some(secs)
  {
    if secs < 60 {
      SecondsTextReads(secs);
    } else if secs < 3600 {
      MinutesDurationReads(secs);
    } else {
      HoursDurationReads(secs);
    }
  }

  /** Between a minute and an hour, the rendering reads back. */
  lemma MinutesDurationReads(secs: nat)
    requires 60 <= secs < 3600
    ensures ReadDuration(DurationString(secs)) == Some(secs)
  {
    var m, x := secs / 60, secs % 60;
    Units(secs);
    MinutesTextReads(m, x, true);
    assert DurationString(secs) == MinutesText(m, x);
  }

  /** From an hour on, the rendering reads back. */
  lemma HoursDurationReads(secs: nat)
    requires 3600 <= secs
    ensures ReadDuration(DurationString(secs)) == Some(secs)
  {
    var h, m, x := secs / 3600, secs / 60 % 60, secs % 60;
    Units(secs);
    HoursTextReads(h, m, x);
    assert DurationString(secs) == HoursText(h, m, x);
  }

  /** The one-digit renderings of zero and one. */
  lemma ZeroAndOne()
    ensures NatToString(0) == "0" && NatToString(1) == "1"
  {
  }

  /** One minute and no seconds as fields. */
  lemma OneMinuteText()
    ensures MinutesText(1, 0) == "1m0s"
  {
    ZeroAndOne();
  }

  /** One minute prints as "1m0s". */
  lemma OneMinute()
    ensures DurationString(60) == "1m0s"
  {
    MinutesRendering(1, 0);
    OneMinuteText();
  }

  /** Ten prints as "10". */
  lemma TenString()
    ensures IntToString(10) == "10"
  {
    assert NatToString(10) == NatToString(1) + [DigitChar(0)];
    ZeroAndOne();
  }

  /** What ReadSeconds accepts is a seconds text. */
  lemma SecondsForm(s: string)
    requires ReadSeconds(s).Some?
    ensures ReadSeconds(s).value < 60 && s == SecondsText(ReadSeconds(s).value)
  {
    LeadForm(s);
    SmallRoundTrip(Lead(s).value.0);
  }

  /** What ReadMinutes accepts is a minutes text. */
  lemma MinutesForm(s: string, leading: bool) returns (m: nat, x: nat)
    requires ReadMinutes(s, leading).Some?
    ensures m < 60 && x < 60 && (leading ==> m > 0)
    ensures s == MinutesText(m, x) && ReadMinutes(s, leading) == Some(60 * m + x)
  {
    var f := Lead(s).value;
    LeadForm(s);
    SmallRoundTrip(f.0);
    SecondsForm(f.2);
    m, x := SmallValue(f.0), ReadSeconds(f.2).value;
    ZeroNumeral(m);
  }

  /** Between one and 59 minutes are printed as minutes and seconds. */
  lemma MinutesRendering(m: nat, x: nat)
    requires 0 < m < 60 && x < 60
    ensures DurationString(60 * m + x) == MinutesText(m, x)
  {
    MinuteUnits(m, x);
  }

  /** An hour or more is printed as hours, minutes and seconds. */
  lemma HoursRendering(h: nat, m: nat, x: nat)
    requires 0 < h && m < 60 && x < 60
    ensures DurationString(3600 * h + 60 * m + x) == HoursText(h, m, x)
  {
    UnitsOf(h, m, x);
  }

  /** A text with an hours field at its head that reads as a duration is
      the rendering of that duration. */
  lemma HoursOnlyRenderings(s: string)
    requires ReadDuration(s).Some? && Lead(s).Some? && Lead(s).value.1 == 'h'
    ensures s == DurationString(ReadDuration(s).value)
  {
    var f := Lead(s).value;
    LeadForm(s);
    NumeralRoundTrip(f.0);
    var h := ParseDigits(f.0);
    ZeroNumeral(h);
    var m, x := MinutesForm(f.2, false);
    HoursRendering(h, m, x);
  }

  /** ReadDuration accepts nothing but renderings: a string that reads as
      a duration is exactly how time.Duration prints it. */
  lemma ReadDurationOnlyRenderings(s: string)
    requires ReadDuration(s).Some?
    ensures s == DurationString(ReadDuration(s).value)
  {
    if Lead(s).Some? && Lead(s).value.1 == 'h' {
      HoursOnlyRenderings(s);
    } else if Lead(s).Some? && Lead(s).value.1 == 'm' {
      var m, x := MinutesForm(s, true);
      MinutesRendering(m, x);
    } else {
      SecondsForm(s);
    }
  }
}
