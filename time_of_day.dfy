/**
 * Times of day as the schedule form accepts them and as the upcoming list
 * reads them: the `H:MM` / `HH:MM` pattern of the form schema, and the
 * numeric (hour, minute) key obtained by splitting at ':' and reading each
 * part as a number.
 */
module TimeOfDay {

  predicate IsDigit(c: char)
  {
    '0' <= c <= '9'
  }

  function DigitValue(c: char): (d: nat)
    requires IsDigit(c)
    ensures d < 10
  {
    c as int - '0' as int
  }

  function DigitChar(d: nat): (c: char)
    requires d < 10
    ensures IsDigit(c) && DigitValue(c) == d
  {
    ('0' as int + d) as char
  }

  /** `[01]?[0-9]|2[0-3]` for a two-character hour. */
  predicate HourPair(a: char, b: char)
  {
    ((a == '0' || a == '1') && IsDigit(b)) || (a == '2' && '0' <= b <= '3')
  }

  /** `:[0-5][0-9]` followed by the end of the string. */
  predicate MinutePart(t: string)
  {
    |t| == 3 && t[0] == ':' && '0' <= t[1] <= '5' && IsDigit(t[2])
  }

  /** The regular expression `^([01]?[0-9]|2[0-3]):[0-5][0-9]$`: one hour
      digit, or two digits 00 to 23, then a colon and two minute digits. */
  predicate MatchesTimePattern(s: string)
  {
    || (|s| == 4 && IsDigit(s[0]) && MinutePart(s[1..]))
    || (|s| == 5 && HourPair(s[0], s[1]) && MinutePart(s[2..]))
  }

  /** The numeric sort key of a time. */
  datatype Clock = Clock(hour: nat, minute: nat)

  /** The part of `s` before its first ':' (all of `s` when there is none). */
  function BeforeColon(s: string): (r: string)
    ensures |r| <= |s| && r == s[..|r|] && ':' !in r
    ensures |r| < |s| ==> s[|r|] == ':'
  {
    if s == [] || s[0] == ':' then [] else [s[0]] + BeforeColon(s[1..])
  }

  /** The second ':'-separated field of `s` (empty when there is no colon). */
  function SecondField(s: string): string
  {
    var h := BeforeColon(s);
    if |h| < |s| then BeforeColon(s[|h| + 1..]) else []
  }

  /** The decimal value of a digit string, as `Number` reads it ("" is 0).
      A non-digit character counts as 0 here; see README for that fallback. */
  function DecimalValue(t: string): nat
  {
    if t == [] then 0
    else 10 * DecimalValue(t[..|t| - 1]) + (if IsDigit(t[|t| - 1]) then DigitValue(t[|t| - 1]) else 0)
  }

  /** `timeString.split(':').map(Number)`, first two fields. */
  function ParseClock(s: string): Clock
  {
    Clock(DecimalValue(BeforeColon(s)), DecimalValue(SecondField(s)))
  }

  /** The comparator of the upcoming list: hours first, then minutes. */
  function Compare(a: Clock, b: Clock): int
  {
    if a.hour != b.hour then a.hour - b.hour else a.minute - b.minute
  }

  /** `a` may precede `b` in a list sorted by the comparator. */
  predicate ClockLe(a: Clock, b: Clock)
  {
    Compare(a, b) <= 0
  }

  /** The comparator orders clocks lexicographically and is a total order. */
  lemma CompareIsLexicographicOrder(a: Clock, b: Clock, c: Clock)
    ensures ClockLe(a, b) <==> a.hour < b.hour || (a.hour == b.hour && a.minute <= b.minute)
    ensures ClockLe(a, b) || ClockLe(b, a)
    ensures ClockLe(a, b) && ClockLe(b, a) ==> a == b
    ensures ClockLe(a, b) && ClockLe(b, c) ==> ClockLe(a, c)
  {
  }

  function Pad2(n: nat): (r: string)
    requires n < 100
    ensures |r| == 2 && IsDigit(r[0]) && IsDigit(r[1])
  {
    [DigitChar(n / 10), DigitChar(n % 10)]
  }

  lemma DecimalOfOneDigit(c: char)
    requires IsDigit(c)
    ensures DecimalValue([c]) == DigitValue(c)
  {
    assert [c][..0] == [];
  }

  lemma DecimalOfPad2(n: nat)
    requires n < 100
    ensures DecimalValue(Pad2(n)) == n
  {
    var p := Pad2(n);
    assert p[..1] == [p[0]];
    DecimalOfOneDigit(p[0]);
  }

  lemma {:induction false} BeforeColonOfPrefix(a: string, b: string)
    requires ':' !in a
    requires b != [] && b[0] == ':'
    ensures BeforeColon(a + b) == a
  {
    if a != [] {
      assert (a + b)[1..] == a[1..] + b;
      BeforeColonOfPrefix(a[1..], b);
    } else {
      assert a + b == b;
    }
  }

  lemma BeforeColonNoColon(a: string)
    requires ':' !in a
    ensures BeforeColon(a) == a
  {
  }

  /** How a time made of hour digits `h` and two minute digits parses. */
  lemma ParseOfShape(hd: string, m: nat)
    requires 1 <= |hd| <= 2 && forall i :: 0 <= i < |hd| ==> IsDigit(hd[i])
    requires m < 60
    ensures ParseClock(hd + ":" + Pad2(m)) == Clock(DecimalValue(hd), m)
  {
    var s := hd + ":" + Pad2(m);
    assert ':' !in hd;
    BeforeColonOfPrefix(hd, ":" + Pad2(m));
    assert s == hd + (":" + Pad2(m));
    assert BeforeColon(s) == hd;
    assert s[|hd| + 1..] == Pad2(m);
    assert ':' !in Pad2(m);
    BeforeColonNoColon(Pad2(m));
    DecimalOfPad2(m);
  }

  /** Every hour 0..23 and minute 0..59, written with a two-digit hour, is
      accepted and parses back to that hour and minute. */
  lemma PaddedTimeAccepted(h: nat, m: nat)
    requires h < 24 && m < 60
    ensures MatchesTimePattern(Pad2(h) + ":" + Pad2(m))
    ensures ParseClock(Pad2(h) + ":" + Pad2(m)) == Clock(h, m)
  {
    var s := Pad2(h) + ":" + Pad2(m);
    assert s[2..] == ":" + Pad2(m);
    ParseOfShape(Pad2(h), m);
    DecimalOfPad2(h);
  }

  /** An hour 0..9 may also be written with one digit. */
  lemma ShortTimeAccepted(h: nat, m: nat)
    requires h < 10 && m < 60
    ensures MatchesTimePattern([DigitChar(h)] + ":" + Pad2(m))
    ensures ParseClock([DigitChar(h)] + ":" + Pad2(m)) == Clock(h, m)
  {
    var s := [DigitChar(h)] + ":" + Pad2(m);
    assert s[1..] == ":" + Pad2(m);
    ParseOfShape([DigitChar(h)], m);
    DecimalOfOneDigit(DigitChar(h));
  }

  /** Conversely, every accepted time is one of those two spellings of an
      hour 0..23 and a minute 0..59, and its key is that hour and minute. */
  lemma AcceptedTimeIsClock(s: string)
    requires MatchesTimePattern(s)
    ensures var c := ParseClock(s);
      && c.hour < 24 && c.minute < 60
      && (s == Pad2(c.hour) + ":" + Pad2(c.minute)
          || (c.hour < 10 && s == [DigitChar(c.hour)] + ":" + Pad2(c.minute)))
  {
    var m := 10 * DigitValue(s[|s| - 2]) + DigitValue(s[|s| - 1]);
    assert Pad2(m) == s[|s| - 2..];
    if |s| == 4 {
      var h := DigitValue(s[0]);
      assert s == [DigitChar(h)] + ":" + Pad2(m);
      ShortTimeAccepted(h, m);
    } else {
      var h := 10 * DigitValue(s[0]) + DigitValue(s[1]);
      assert s == Pad2(h) + ":" + Pad2(m);
      PaddedTimeAccepted(h, m);
    }
  }

  /** The hour and minute bounds are inclusive: "23:59" is accepted,
      "24:00" and "12:60" are not, and a minute needs two digits. */
  lemma TimePatternBoundaries()
    ensures !MatchesTimePattern("24:00") && !MatchesTimePattern("12:60")
    ensures !MatchesTimePattern("8:5") && !MatchesTimePattern("008:05")
    ensures MatchesTimePattern("23:59")
  {
    assert "24:00"[0] == '2' && "24:00"[1] == '4';
    assert "12:60"[2..][1] == '6';
    assert |"8:5"| == 3 && |"008:05"| == 6;
    PaddedTimeAccepted(23, 59);
    assert Pad2(23) + ":" + Pad2(59) == "23:59";
  }

  /** "8:05" and "08:05" are both accepted and share the key (8, 5). */
  lemma LeadingZeroIrrelevant()
    ensures MatchesTimePattern("8:05") && MatchesTimePattern("08:05")
    ensures ParseClock("8:05") == ParseClock("08:05") == Clock(8, 5)
  {
    ShortTimeAccepted(8, 5);
    PaddedTimeAccepted(8, 5);
    assert Pad2(5) == "05" && Pad2(8) == "08";
    assert [DigitChar(8)] + ":" + Pad2(5) == "8:05";
    assert Pad2(8) + ":" + Pad2(5) == "08:05";
  }
}
