/** Building blocks of the date and clock regular expressions the handlers share. */
module Patterns {
  import opened Types
  import opened Text

  /** `[-\/]` when slash is true, `-` otherwise. */
  predicate DateSeparator(c: char, slash: bool) {
    c == '-' || (slash && c == '/')
  }

  /** `\d{4}[-\/]\d{2}[-\/]\d{2}` at position i (`\d{4}-\d{2}-\d{2}` when slash is false). */
  predicate DateAt(s: string, i: nat, slash: bool) {
    && i + 10 <= |s|
    && IsDigit(s[i]) && IsDigit(s[i + 1]) && IsDigit(s[i + 2]) && IsDigit(s[i + 3])
    && DateSeparator(s[i + 4], slash)
    && IsDigit(s[i + 5]) && IsDigit(s[i + 6])
    && DateSeparator(s[i + 7], slash)
    && IsDigit(s[i + 8]) && IsDigit(s[i + 9])
  }

  /** `\d{2}:\d{2}` at position i. */
  predicate TwoDigitClockAt(s: string, i: nat) {
    i + 5 <= |s| && IsDigit(s[i]) && IsDigit(s[i + 1]) && s[i + 2] == ':' && IsDigit(s[i + 3]) && IsDigit(s[i + 4])
  }

  /** `\d{1,2}:\d{2}` at position i: where the match ends. The greedy `\d{1,2}` tries two hour
      digits first; the one-digit reading needs s[i+1] == ':', so at most one reading matches. */
  function ClockEnd(s: string, i: nat): (e: Option<nat>)
    ensures e.Some? ==> i + 4 <= e.value <= i + 5 && e.value <= |s|
    ensures e.Some? ==> AllDigits(s[i..e.value - 3]) && s[e.value - 3] == ':' && AllDigits(s[e.value - 2..e.value])
  {
    if TwoDigitClockAt(s, i) then Some(i + 5)
    else if i + 4 <= |s| && IsDigit(s[i]) && s[i + 1] == ':' && IsDigit(s[i + 2]) && IsDigit(s[i + 3]) then Some(i + 4)
    else None
  }

  /** The hour digits of a clock match from i to e. */
  function ClockHour(s: string, i: nat, e: nat): nat
    requires ClockEnd(s, i) == Some(e)
  {
    DigitsValue(s[i..e - 3])
  }

  /** The minute digits of a clock match from i to e. */
  function ClockMinute(s: string, i: nat, e: nat): nat
    requires ClockEnd(s, i) == Some(e)
  {
    DigitsValue(s[e - 2..e])
  }

  /** A clock match starts with a digit. */
  lemma ClockStartsWithDigit(s: string, i: nat)
    requires ClockEnd(s, i).Some?
    ensures i < |s| && IsDigit(s[i])
  {
  }

  /** Shifting a string right by a prefix shifts its clock matches with it. */
  lemma ClockShift(p: string, s: string, i: nat)
    ensures ClockEnd(p + s, |p| + i) == (if ClockEnd(s, i).Some? then Some(|p| + ClockEnd(s, i).value) else None)
    ensures ClockEnd(s, i).Some? ==>
      ClockHour(p + s, |p| + i, |p| + ClockEnd(s, i).value) == ClockHour(s, i, ClockEnd(s, i).value)
      && ClockMinute(p + s, |p| + i, |p| + ClockEnd(s, i).value) == ClockMinute(s, i, ClockEnd(s, i).value)
  {
    var t := p + s;
    assert forall k :: 0 <= k < |s| ==> t[|p| + k] == s[k];
    if ClockEnd(s, i).Some? {
      var e := ClockEnd(s, i).value;
      assert t[|p| + i..|p| + e - 3] == s[i..e - 3];
      assert t[|p| + e - 2..|p| + e] == s[e - 2..e];
    }
  }
}
