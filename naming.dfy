/**
 * Names the program derives from the clock and the file-name pattern the
 * retention pass selects: the `%Y%m%d` stamp of today's log file
 * (`app_YYYYMMDD.log`), the `%Y%m%d_%H%M%S` error id, and the glob
 * `app_*.log*`.
 */
module Naming {
  import opened Wrappers

  predicate IsDigit(c: char) { '0' <= c <= '9' }

  predicate AllDigits(s: string) { forall i :: 0 <= i < |s| ==> IsDigit(s[i]) }

  function Pow10(w: nat): (p: nat)
    ensures p >= 1
  {
    if w == 0 then 1 else 10 * Pow10(w - 1)
  }

  /** The decimal value of a string of digits, most significant first. */
  function DigitsValue(s: string): nat
    requires AllDigits(s)
  {
    if s == [] then 0 else 10 * DigitsValue(s[..|s| - 1]) + (s[|s| - 1] as int - '0' as int)
  }

  function DigitChar(d: nat): (c: char)
    requires d < 10
    ensures IsDigit(c) && c as int - '0' as int == d
  {
    ('0' as int + d) as char
  }

  /** `n` written with exactly `w` decimal digits, zero-padded on the left, as strftime renders a field. */
  function Pad(n: nat, w: nat): (s: string)
    requires n < Pow10(w)
    ensures |s| == w && AllDigits(s)
    ensures DigitsValue(s) == n
  {
    if w == 0 then ""
    else
      var front := Pad(n / 10, w - 1);
      var s := front + [DigitChar(n % 10)];
      assert s[..|s| - 1] == front;
      s
  }

  /** A calendar date as Python's `datetime` holds it. */
  datatype Date = Date(year: nat, month: nat, day: nat)

  /** A wall-clock time of day, whole seconds. */
  datatype TimeOfDay = TimeOfDay(hour: nat, minute: nat, second: nat)

  predicate ValidDate(d: Date) { 1 <= d.year <= 9999 && 1 <= d.month <= 12 && 1 <= d.day <= 31 }

  predicate ValidTime(t: TimeOfDay) { t.hour < 24 && t.minute < 60 && t.second < 60 }

  /** The `%Y%m%d` rendering of a date. */
  function DateStamp(d: Date): (s: string)
    requires ValidDate(d)
    ensures |s| == 8 && AllDigits(s)
  {
    Pad(d.year, 4) + Pad(d.month, 2) + Pad(d.day, 2)
  }

  /** Reads a `%Y%m%d` stamp back; the inverse of DateStamp. */
  function ParseDateStamp(s: string): Option<Date>
  {
    if |s| == 8 && AllDigits(s) then
      var d := Date(DigitsValue(s[..4]), DigitsValue(s[4..6]), DigitsValue(s[6..]));
      if ValidDate(d) then Some(d) else None
    else None
  }

  lemma DateStampRoundTrip(d: Date)
    requires ValidDate(d)
    ensures ParseDateStamp(DateStamp(d)) == Some(d)
  {
    var y, m, dd := Pad(d.year, 4), Pad(d.month, 2), Pad(d.day, 2);
    var s := y + m + dd;
    assert s[..4] == y && s[4..6] == m && s[6..] == dd;
  }

  lemma DateStampInjective(d1: Date, d2: Date)
    requires ValidDate(d1) && ValidDate(d2) && d1 != d2
    ensures DateStamp(d1) != DateStamp(d2)
  {
    DateStampRoundTrip(d1);
    DateStampRoundTrip(d2);
  }

  /** The name of the log file opened on date `d` (main.py:57). */
  function LogFileName(d: Date): string
    requires ValidDate(d)
  {
    "app_" + DateStamp(d) + ".log"
  }

  /** Reads the date back out of a log file name; the inverse of LogFileName. */
  function DateOfLogFileName(name: string): Option<Date>
  {
    if |name| == 16 && name[..4] == "app_" && name[12..] == ".log" then ParseDateStamp(name[4..12])
    else None
  }

  lemma LogFileNameRoundTrip(d: Date)
    requires ValidDate(d)
    ensures |LogFileName(d)| == 16
    ensures DateOfLogFileName(LogFileName(d)) == Some(d)
  {
    var stamp := DateStamp(d);
    var name := LogFileName(d);
    assert name[..4] == "app_" && name[4..12] == stamp && name[12..] == ".log";
    DateStampRoundTrip(d);
  }

  /** The correlation id of an unexpected error: `%Y%m%d_%H%M%S` (main.py:188). */
  function ErrorId(d: Date, t: TimeOfDay): (id: string)
    requires ValidDate(d) && ValidTime(t)
    ensures |id| == 15 && id[8] == '_'
    ensures AllDigits(id[..8]) && AllDigits(id[9..])
    ensures id[..8] == DateStamp(d)
  {
    var id := DateStamp(d) + "_" + Pad(t.hour, 2) + Pad(t.minute, 2) + Pad(t.second, 2);
    assert id[..8] == DateStamp(d);
    assert id[9..] == Pad(t.hour, 2) + Pad(t.minute, 2) + Pad(t.second, 2);
    id
  }

  /** Reads the date and time back out of an error id; the inverse of ErrorId. */
  function ParseErrorId(id: string): Option<(Date, TimeOfDay)>
  {
    if |id| == 15 && id[8] == '_' && AllDigits(id[9..]) then
      match ParseDateStamp(id[..8])
      case None => None
      case Some(d) =>
        var t := TimeOfDay(DigitsValue(id[9..11]), DigitsValue(id[11..13]), DigitsValue(id[13..]));
        if ValidTime(t) then Some((d, t)) else None
    else None
  }

  lemma ErrorIdRoundTrip(d: Date, t: TimeOfDay)
    requires ValidDate(d) && ValidTime(t)
    ensures ParseErrorId(ErrorId(d, t)) == Some((d, t))
  {
    var id := ErrorId(d, t);
    var h, m, s := Pad(t.hour, 2), Pad(t.minute, 2), Pad(t.second, 2);
    assert id[9..] == h + m + s;
    assert id[9..11] == h && id[11..13] == m && id[13..] == s;
    DateStampRoundTrip(d);
  }

  // ---- The glob `app_*.log*` ----

  predicate StartsWith(s: string, p: string) { |p| <= |s| && s[..|p|] == p }

  /** `p` occurs somewhere inside `s`. */
  predicate Contains(s: string, p: string)
    decreases |s|
  {
    StartsWith(s, p) || (|s| > 0 && Contains(s[1..], p))
  }

  /**
   * The glob `app_*.log*`: the prefix `app_`, any text, `.log`, any text
   * (each `*` may be empty; case-sensitive, as on POSIX).
   */
  predicate MatchesLogPattern(name: string)
  {
    StartsWith(name, "app_") && Contains(name[4..], ".log")
  }

  /** The names the glob describes, built from what its two `*` stand for. */
  function GlobInstance(mid: string, rest: string): string
  {
    "app_" + mid + ".log" + rest
  }

  lemma {:induction false} ContainsAfter(pre: string, p: string, post: string)
    ensures Contains(pre + p + post, p)
    decreases |pre|
  {
    var s := pre + p + post;
    if pre == [] {
      assert s[..|p|] == p;
    } else {
      assert s[1..] == pre[1..] + p + post;
      ContainsAfter(pre[1..], p, post);
    }
  }

  lemma {:induction false} SplitAtOccurrence(s: string, p: string) returns (pre: string, post: string)
    requires Contains(s, p)
    ensures s == pre + p + post
    decreases |s|
  {
    if StartsWith(s, p) {
      pre, post := "", s[|p|..];
      assert s == s[..|p|] + s[|p|..];
    } else {
      var pre', post' := SplitAtOccurrence(s[1..], p);
      pre, post := [s[0]] + pre', post';
      assert s == [s[0]] + s[1..];
    }
  }

  /** Every instance of the glob matches it. */
  lemma GlobInstanceMatches(mid: string, rest: string)
    ensures MatchesLogPattern(GlobInstance(mid, rest))
  {
    var name := GlobInstance(mid, rest);
    assert name[..4] == "app_";
    assert name[4..] == mid + ".log" + rest;
    ContainsAfter(mid, ".log", rest);
  }

  /** Every name the pattern accepts is an instance of the glob. */
  lemma MatchIsGlobInstance(name: string) returns (mid: string, rest: string)
    requires MatchesLogPattern(name)
    ensures name == GlobInstance(mid, rest)
  {
    mid, rest := SplitAtOccurrence(name[4..], ".log");
    assert name == name[..4] + name[4..];
  }

  /** Today's log file and every rotated segment of it (`app_YYYYMMDD.log.<suffix>`) match the pattern. */
  lemma LogFileNamesMatch(d: Date, suffix: string)
    requires ValidDate(d)
    ensures MatchesLogPattern(LogFileName(d))
    ensures MatchesLogPattern(LogFileName(d) + "." + suffix)
  {
    assert LogFileName(d) == GlobInstance(DateStamp(d), "");
    GlobInstanceMatches(DateStamp(d), "");
    assert LogFileName(d) + "." + suffix == GlobInstance(DateStamp(d), "." + suffix);
    GlobInstanceMatches(DateStamp(d), "." + suffix);
  }
}
