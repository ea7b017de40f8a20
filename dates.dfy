/** A PHP `DateTime`, reduced to the formatted components the client reads
    from it. Formatting itself and the clock are outside the model. */
module Dates {

  import Php

  /** The strings `format` yields for the letters the client uses:
      'Y' (year), 'm' (month, two digits), 'd' (day, two digits),
      'G' (hour, no leading zero), 'H' (hour, two digits),
      'i' (minutes, two digits) and 's' (seconds, two digits). */
  datatype DateTime = DateTime(
    year: string,
    month: string,
    day: string,
    hour: string,
    paddedHour: string,
    minute: string,
    second: string)

  /** `format('Y-m-d H:i:s')`. */
  function Stamp(dt: DateTime): string {
    dt.year + "-" + dt.month + "-" + dt.day + " " + dt.paddedHour + ":" + dt.minute + ":" + dt.second
  }

  predicate Digits(s: string, width: nat) {
    |s| == width && Php.AllDigits(s)
  }

  /** The widths PHP's formatting gives a date of the years 1000 to 9999. */
  predicate WellFormed(dt: DateTime) {
    && Digits(dt.year, 4) && Digits(dt.month, 2) && Digits(dt.day, 2)
    && Digits(dt.paddedHour, 2) && Digits(dt.minute, 2) && Digits(dt.second, 2)
  }

  /** A well-formed date prints as `YYYY-MM-DD HH:MM:SS`: nineteen characters,
      the separators at fixed places and each component readable back from
      its slot. */
  lemma StampLayout(dt: DateTime)
    requires WellFormed(dt)
    ensures var s := Stamp(dt);
      && |s| == 19
      && s[4] == '-' && s[7] == '-' && s[10] == ' ' && s[13] == ':' && s[16] == ':'
      && s[..4] == dt.year && s[5..7] == dt.month && s[8..10] == dt.day
      && s[11..13] == dt.paddedHour && s[14..16] == dt.minute && s[17..] == dt.second
  {
    var time := dt.paddedHour + ":" + dt.minute + ":" + dt.second;
    var date := dt.year + "-" + dt.month + "-" + dt.day;
    assert Stamp(dt) == date + " " + time;
    Split3(dt.year, dt.month, dt.day, '-');
    Split3(dt.paddedHour, dt.minute, dt.second, ':');
    var s := Stamp(dt);
    assert s == date + [' '] + time;
    assert s[..10] == date && s[10] == ' ' && s[11..] == time;
    assert s[11..][..2] == s[11..13] && s[11..][3..5] == s[14..16] && s[11..][6..] == s[17..];
  }

  /** Three components joined by `sep`, the middle one two characters long:
      where each component and each separator sits. */
  lemma Split3(a: string, b: string, c: string, sep: char)
    requires |b| == 2
    ensures var s := a + [sep] + b + [sep] + c;
      && |s| == |a| + |c| + 4
      && s[..|a|] == a && s[|a|] == sep && s[|a| + 1..|a| + 3] == b
      && s[|a| + 3] == sep && s[|a| + 4..] == c
  {
  }
}
