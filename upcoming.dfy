/**
 * The upcoming-schedules card: the active schedules sorted by time of day,
 * and the short summary of each schedule's days.
 */
module Upcoming {
  import opened AudioUtils
  import opened TimeOfDay

  /** The sort key: the time split at ':' with each part read as a number. */
  function Key(x: AudioSchedule): Clock
  {
    ParseClock(x.timeString)
  }

  /** `schedules.filter(schedule => schedule.isActive)`. */
  function ActiveOnly(s: seq<AudioSchedule>): (r: seq<AudioSchedule>)
    ensures |r| <= |s|
  {
    if s == [] then []
    else if s[0].isActive then [s[0]] + ActiveOnly(s[1..])
    else ActiveOnly(s[1..])
  }

  predicate SortedByTime(s: seq<AudioSchedule>)
  {
    forall i, j :: 0 <= i < j < |s| ==> ClockLe(Key(s[i]), Key(s[j]))
  }

  /** The schedules of `s` whose key is `k`, in their order in `s`. */
  function WithKey(s: seq<AudioSchedule>, k: Clock): seq<AudioSchedule>
  {
    if s == [] then []
    else if Key(s[0]) == k then [s[0]] + WithKey(s[1..], k)
    else WithKey(s[1..], k)
  }

  /** Places `x` before the first element whose key is not below its own. */
  function Insert(x: AudioSchedule, t: seq<AudioSchedule>): seq<AudioSchedule>
  {
    if t == [] then [x]
    else if ClockLe(Key(x), Key(t[0])) then [x] + t
    else [t[0]] + Insert(x, t[1..])
  }

  /** A stable sort by the comparator: each element is inserted ahead of
      the equal keys of the elements that followed it. */
  function SortByTime(s: seq<AudioSchedule>): seq<AudioSchedule>
  {
    if s == [] then [] else Insert(s[0], SortByTime(s[1..]))
  }

  /** The list the card shows. */
  function UpcomingOf(s: seq<AudioSchedule>): seq<AudioSchedule>
  {
    SortByTime(ActiveOnly(s))
  }

  lemma {:induction false} ActiveOnlyMembers(s: seq<AudioSchedule>)
    ensures forall x :: multiset(ActiveOnly(s))[x] == if x.isActive then multiset(s)[x] else 0
  {
    if s != [] {
      ActiveOnlyMembers(s[1..]);
      assert s == [s[0]] + s[1..];
    }
  }

  lemma {:induction false} InsertPermutes(x: AudioSchedule, t: seq<AudioSchedule>)
    ensures multiset(Insert(x, t)) == multiset(t) + multiset{x}
  {
    if t != [] && !ClockLe(Key(x), Key(t[0])) {
      InsertPermutes(x, t[1..]);
      assert t == [t[0]] + t[1..];
    }
  }

  lemma {:induction false} InsertKeepsRuns(x: AudioSchedule, t: seq<AudioSchedule>, k: Clock)
    ensures WithKey(Insert(x, t), k) == (if Key(x) == k then [x] else []) + WithKey(t, k)
  {
    if t != [] && !ClockLe(Key(x), Key(t[0])) {
      InsertKeepsRuns(x, t[1..], k);
      var r := Insert(x, t);
      assert r[1..] == Insert(x, t[1..]);
      assert Key(t[0]) != Key(x) by {
        CompareIsLexicographicOrder(Key(x), Key(x), Key(x));
      }
    }
  }

  /** `Key(y)` is not below `Key(x)` and none of `t`'s keys are below it. */
  predicate LowerBound(c: Clock, t: seq<AudioSchedule>)
  {
    forall j :: 0 <= j < |t| ==> ClockLe(c, Key(t[j]))
  }

  lemma SortedCons(y: AudioSchedule, t: seq<AudioSchedule>)
    requires SortedByTime(t) && LowerBound(Key(y), t)
    ensures SortedByTime([y] + t)
  {
    var r := [y] + t;
    forall i, j | 0 <= i < j < |r| ensures ClockLe(Key(r[i]), Key(r[j])) {
      assert r[j] == t[j - 1];
      if i > 0 {
        assert r[i] == t[i - 1];
      }
    }
  }

  lemma SortedTail(s: seq<AudioSchedule>)
    requires s != [] && SortedByTime(s)
    ensures SortedByTime(s[1..]) && LowerBound(Key(s[0]), s[1..])
  {
    forall i, j | 0 <= i < j < |s[1..]| ensures ClockLe(Key(s[1..][i]), Key(s[1..][j])) {
      assert s[1..][i] == s[i + 1] && s[1..][j] == s[j + 1];
    }
    forall j | 0 <= j < |s[1..]| ensures ClockLe(Key(s[0]), Key(s[1..][j])) {
      assert s[1..][j] == s[j + 1];
    }
  }

  lemma {:induction false} LowerBoundOfSorted(c: Clock, t: seq<AudioSchedule>)
    requires t != [] && SortedByTime(t) && ClockLe(c, Key(t[0]))
    ensures LowerBound(c, t)
  {
    forall j | 0 <= j < |t| ensures ClockLe(c, Key(t[j])) {
      CompareIsLexicographicOrder(c, Key(t[0]), Key(t[j]));
    }
  }

  lemma {:induction false} InsertSorted(x: AudioSchedule, t: seq<AudioSchedule>, c: Clock)
    requires SortedByTime(t) && LowerBound(c, t) && ClockLe(c, Key(x))
    ensures SortedByTime(Insert(x, t)) && LowerBound(c, Insert(x, t))
  {
    if t == [] {
    } else if ClockLe(Key(x), Key(t[0])) {
      LowerBoundOfSorted(Key(x), t);
      SortedCons(x, t);
      var r := [x] + t;
      assert forall j :: 0 < j < |r| ==> r[j] == t[j - 1];
    } else {
      SortedTail(t);
      CompareIsLexicographicOrder(Key(x), Key(t[0]), Key(x));
      InsertSorted(x, t[1..], Key(t[0]));
      var rest := Insert(x, t[1..]);
      SortedCons(t[0], rest);
      assert Insert(x, t) == [t[0]] + rest;
      InsertSorted(x, t[1..], c) by {
        forall j | 0 <= j < |t[1..]| ensures ClockLe(c, Key(t[1..][j])) {
          assert t[1..][j] == t[j + 1];
        }
      }
      var r := [t[0]] + rest;
      assert forall j :: 0 < j < |r| ==> r[j] == rest[j - 1];
    }
  }

  lemma {:induction false} SortPermutes(s: seq<AudioSchedule>)
    ensures multiset(SortByTime(s)) == multiset(s)
  {
    if s != [] {
      SortPermutes(s[1..]);
      InsertPermutes(s[0], SortByTime(s[1..]));
      assert s == [s[0]] + s[1..];
    }
  }

  lemma {:induction false} SortOrders(s: seq<AudioSchedule>)
    ensures SortedByTime(SortByTime(s))
  {
    if s != [] {
      var t := SortByTime(s[1..]);
      SortOrders(s[1..]);
      var zero := Clock(0, 0);
      forall j | 0 <= j < |t| ensures ClockLe(zero, Key(t[j])) { }
      InsertSorted(s[0], t, zero);
    }
  }

  lemma {:induction false} SortKeepsRuns(s: seq<AudioSchedule>, k: Clock)
    ensures WithKey(SortByTime(s), k) == WithKey(s, k)
  {
    if s != [] {
      SortKeepsRuns(s[1..], k);
      InsertKeepsRuns(s[0], SortByTime(s[1..]), k);
    }
  }

  /** The sort returns a permutation of its input, ordered by the
      comparator, in which schedules with equal keys keep their input order. */
  lemma SortByTimeFacts(s: seq<AudioSchedule>)
    ensures multiset(SortByTime(s)) == multiset(s)
    ensures SortedByTime(SortByTime(s))
    ensures forall k :: WithKey(SortByTime(s), k) == WithKey(s, k)
  {
    SortPermutes(s);
    SortOrders(s);
    forall k ensures WithKey(SortByTime(s), k) == WithKey(s, k) {
      SortKeepsRuns(s, k);
    }
  }

  /** The card shows every active schedule exactly as often as the registry
      holds it and no inactive one, ordered by (hour, minute), with ties in
      registry order. */
  lemma UpcomingSpec(s: seq<AudioSchedule>)
    ensures forall x :: multiset(UpcomingOf(s))[x] == if x.isActive then multiset(s)[x] else 0
    ensures forall x :: x in UpcomingOf(s) <==> x in s && x.isActive
    ensures SortedByTime(UpcomingOf(s))
    ensures forall k :: WithKey(UpcomingOf(s), k) == WithKey(ActiveOnly(s), k)
  {
    ActiveOnlyMembers(s);
    SortByTimeFacts(ActiveOnly(s));
    forall x ensures x in UpcomingOf(s) <==> x in s && x.isActive {
      assert x in UpcomingOf(s) <==> x in multiset(UpcomingOf(s));
      assert x in s <==> x in multiset(s);
    }
  }

  lemma WithKeyHead(s: seq<AudioSchedule>)
    requires s != []
    ensures WithKey(s, Key(s[0])) == [s[0]] + WithKey(s[1..], Key(s[0]))
  {
  }

  lemma WithKeyTail(s: seq<AudioSchedule>, k: Clock)
    requires s != []
    ensures WithKey(s[1..], k) == if k == Key(s[0]) then WithKey(s, k)[1..] else WithKey(s, k)
  {
  }

  lemma {:induction false} WithKeyMember(s: seq<AudioSchedule>, k: Clock) returns (i: nat)
    requires WithKey(s, k) != []
    ensures i < |s| && Key(s[i]) == k
  {
    if Key(s[0]) == k {
      i := 0;
    } else {
      var j := WithKeyMember(s[1..], k);
      i := j + 1;
    }
  }

  /** In a sorted list, the head's key is at most the key of any element. */
  lemma HeadKeyBelow(b: seq<AudioSchedule>, k: Clock)
    requires SortedByTime(b) && WithKey(b, k) != []
    ensures ClockLe(Key(b[0]), k)
  {
    var i := WithKeyMember(b, k);
    if i == 0 {
      CompareIsLexicographicOrder(k, k, k);
    }
  }

  lemma SameHeads(a: seq<AudioSchedule>, b: seq<AudioSchedule>)
    requires a != [] && b != [] && SortedByTime(a) && SortedByTime(b)
    requires forall k :: WithKey(a, k) == WithKey(b, k)
    ensures a[0] == b[0]
  {
    var ka, kb := Key(a[0]), Key(b[0]);
    WithKeyHead(a);
    WithKeyHead(b);
    assert WithKey(b, ka) == WithKey(a, ka) != [];
    assert WithKey(a, kb) == WithKey(b, kb) != [];
    HeadKeyBelow(b, ka);
    HeadKeyBelow(a, kb);
    CompareIsLexicographicOrder(ka, kb, ka);
    assert WithKey(a, ka)[0] == a[0];
    assert WithKey(b, ka)[0] == b[0];
  }

  /** Sortedness and stability pin the result down: any list sorted by the
      comparator whose equal-key runs are those of the sort's own result is
      that result, so every stable sort agrees with this one. */
  lemma {:induction false} StableSortIsUnique(a: seq<AudioSchedule>, b: seq<AudioSchedule>)
    requires SortedByTime(a) && SortedByTime(b)
    requires forall k :: WithKey(a, k) == WithKey(b, k)
    ensures a == b
  {
    if a == [] && b == [] {
    } else if a == [] {
      WithKeyHead(b);
      assert false;
    } else if b == [] {
      WithKeyHead(a);
      assert false;
    } else {
      SameHeads(a, b);
      SortedTail(a);
      SortedTail(b);
      TailRunsAgree(a, b);
      StableSortIsUnique(a[1..], b[1..]);
      assert a == [a[0]] + a[1..] && b == [b[0]] + b[1..];
    }
  }

  lemma TailRunsAgree(a: seq<AudioSchedule>, b: seq<AudioSchedule>)
    requires a != [] && b != [] && Key(a[0]) == Key(b[0])
    requires forall k :: WithKey(a, k) == WithKey(b, k)
    ensures forall k :: WithKey(a[1..], k) == WithKey(b[1..], k)
  {
    forall k ensures WithKey(a[1..], k) == WithKey(b[1..], k) {
      WithKeyTail(a, k);
      WithKeyTail(b, k);
      assert WithKey(a, k) == WithKey(b, k);
    }
  }

  lemma PaddedKey(x: AudioSchedule, h: nat, m: nat)
    requires h < 24 && m < 60 && x.timeString == Pad2(h) + ":" + Pad2(m)
    ensures Key(x) == Clock(h, m)
  {
    PaddedTimeAccepted(h, m);
  }

  lemma MorningKey()
    ensures Key(SampleSchedules[0]) == Clock(8, 0)
  {
    var x := SampleSchedules[0];
    assert x.timeString == Pad2(8) + ":" + Pad2(0);
    PaddedKey(x, 8, 0);
  }

  lemma LunchKey()
    ensures Key(SampleSchedules[1]) == Clock(12, 30)
  {
    var x := SampleSchedules[1];
    assert x.timeString == Pad2(12) + ":" + Pad2(30);
    PaddedKey(x, 12, 30);
  }

  lemma DismissalKey()
    ensures Key(SampleSchedules[2]) == Clock(15, 30)
  {
    var x := SampleSchedules[2];
    assert x.timeString == Pad2(15) + ":" + Pad2(30);
    PaddedKey(x, 15, 30);
  }

  /** The active samples' sort keys. */
  lemma SampleKeys()
    ensures Key(SampleSchedules[0]) == Clock(8, 0)
    ensures Key(SampleSchedules[1]) == Clock(12, 30)
    ensures Key(SampleSchedules[2]) == Clock(15, 30)
  {
    MorningKey();
    LunchKey();
    DismissalKey();
  }

  lemma SampleActive()
    ensures ActiveOnly(SampleSchedules) == SampleSchedules[..3]
  {
    var s := SampleSchedules;
    assert ActiveOnly(s[3..]) == [];
    assert s[2..][1..] == s[3..];
    assert s[1..][1..] == s[2..];
    assert ActiveOnly(s[2..]) == [s[2]];
    assert ActiveOnly(s[1..]) == [s[1], s[2]];
  }

  lemma SortOfOrderedThree(t: seq<AudioSchedule>)
    requires |t| == 3 && ClockLe(Key(t[0]), Key(t[1])) && ClockLe(Key(t[1]), Key(t[2]))
    ensures SortByTime(t) == t
  {
    var a, b, c := t[0], t[1], t[2];
    assert t == [a, b, c];
    assert t[1..] == [b, c] && t[1..][1..] == [c];
    assert [b, c][1..] == [c] && [c][1..] == [];
    assert SortByTime([c]) == [c];
    assert SortByTime([b, c]) == Insert(b, [c]) == [b, c];
  }

  lemma SampleOrdered()
    ensures ClockLe(Key(SampleSchedules[0]), Key(SampleSchedules[1]))
    ensures ClockLe(Key(SampleSchedules[1]), Key(SampleSchedules[2]))
    ensures ClockLe(Key(SampleSchedules[0]), Key(SampleSchedules[2]))
  {
    MorningKey();
    LunchKey();
    DismissalKey();
    KeysInOrder(SampleSchedules[0], SampleSchedules[1], SampleSchedules[2]);
  }

  lemma KeysInOrder(a: AudioSchedule, b: AudioSchedule, c: AudioSchedule)
    requires Key(a) == Clock(8, 0) && Key(b) == Clock(12, 30) && Key(c) == Clock(15, 30)
    ensures ClockLe(Key(a), Key(b)) && ClockLe(Key(b), Key(c)) && ClockLe(Key(a), Key(c))
  {
  }

  /** The sample registry shows 08:00, 12:30 and 15:30, without the inactive
      09:45 announcement. */
  lemma SampleUpcoming()
    ensures UpcomingOf(SampleSchedules) == SampleSchedules[..3]
  {
    SampleActive();
    SampleOrdered();
    var t := SampleSchedules[..3];
    assert t[0] == SampleSchedules[0] && t[1] == SampleSchedules[1] && t[2] == SampleSchedules[2];
    SortOfOrderedThree(t);
  }

  /** `d.substring(0, 3)`, counted in characters. JavaScript counts UTF-16
      code units, which differs only for a day name with a character above
      U+FFFF; the checkboxes only add names from `DaysOfWeek`, which have none. */
  function Abbrev(d: string): (r: string)
    ensures |r| <= 3
  {
    if |d| <= 3 then d else d[..3]
  }

  /** `parts.join(", ")`. */
  function JoinComma(parts: seq<string>): string
  {
    if parts == [] then ""
    else if |parts| == 1 then parts[0]
    else parts[0] + ", " + JoinComma(parts[1..])
  }

  /** A natural number in decimal, as a template literal prints it. */
  function Decimal(n: nat): (r: string)
    ensures r != [] && forall i :: 0 <= i < |r| ==> IsDigit(r[i])
  {
    if n < 10 then [DigitChar(n)] else Decimal(n / 10) + [DigitChar(n % 10)]
  }

  /** The abbreviations of at most the first three days. */
  function Shown(days: seq<string>): (r: seq<string>)
    ensures |r| <= 3 && |r| <= |days|
  {
    var n := if |days| < 3 then |days| else 3;
    seq(n, i requires 0 <= i < n => Abbrev(days[i]))
  }

  /** The days line of a schedule: the first three days cut to three letters
      and joined by ", ", then " +N more" when there are more than three. */
  function DaysSummary(days: seq<string>): string
  {
    JoinComma(Shown(days)) + (if |days| > 3 then " +" + Decimal(|days| - 3) + " more" else "")
  }

  /** Reading the printed count back gives the number. */
  lemma {:induction false} DecimalRoundTrip(n: nat)
    ensures DecimalValue(Decimal(n)) == n
  {
    if n < 10 {
      DecimalOfOneDigit(DigitChar(n));
    } else {
      DecimalRoundTrip(n / 10);
      var r := Decimal(n);
      assert r[..|r| - 1] == Decimal(n / 10);
    }
  }

  predicate EndsWithMore(s: string)
  {
    |s| >= 5 && s[|s| - 5..] == " more"
  }

  lemma {:induction false} JoinLast(parts: seq<string>)
    requires |parts| >= 2
    ensures JoinComma(parts) == JoinComma(parts[..|parts| - 1]) + ", " + parts[|parts| - 1]
  {
    if |parts| > 2 {
      JoinLast(parts[1..]);
      assert parts[1..][..|parts| - 2] == parts[..|parts| - 1][1..];
    } else {
      assert parts[..1] == [parts[0]];
    }
  }

  /** Joined parts of at most three letters never end in " more": the last
      five characters would include a comma or run past the start. */
  lemma ShortJoinNoMore(parts: seq<string>)
    requires forall i :: 0 <= i < |parts| ==> |parts[i]| <= 3
    ensures !EndsWithMore(JoinComma(parts))
  {
    var s := JoinComma(parts);
    if |parts| >= 2 {
      JoinLast(parts);
      var last := parts[|parts| - 1];
      var front := JoinComma(parts[..|parts| - 1]);
      assert s == front + ", " + last;
      if |s| >= 5 {
        var comma := |front|;
        assert s[comma] == ',';
        assert |s| - 5 <= comma;
        assert s[|s| - 5..][comma - (|s| - 5)] == ',';
      }
    }
  }

  /** " +N more" is shown exactly when there are more than three days, and
      N, read back from the line, is the number of days not shown. */
  lemma SummaryMoreSuffix(days: seq<string>)
    ensures EndsWithMore(DaysSummary(days)) <==> |days| > 3
    ensures |days| > 3 ==>
      var s := DaysSummary(days);
      var head := JoinComma(Shown(days));
      s[..|head| + 2] == head + " +" && DecimalValue(s[|head| + 2..|s| - 5]) == |days| - 3
  {
    if |days| > 3 {
      var s := DaysSummary(days);
      var head := JoinComma(Shown(days));
      var count := Decimal(|days| - 3);
      assert s == head + " +" + count + " more";
      assert s[|head| + 2..|s| - 5] == count;
      DecimalRoundTrip(|days| - 3);
    } else {
      ShortJoinNoMore(Shown(days));
    }
  }

  /** Any list starting Monday, Tuesday, Wednesday shows "Mon, Tue, Wed". */
  lemma FirstThreeShown(days: seq<string>)
    requires |days| >= 3 && days[0] == "Monday" && days[1] == "Tuesday" && days[2] == "Wednesday"
    ensures JoinComma(Shown(days)) == "Mon, Tue, Wed"
  {
    assert Abbrev("Monday") == "Mon" && Abbrev("Tuesday") == "Tue" && Abbrev("Wednesday") == "Wed";
    assert Shown(days) == ["Mon", "Tue", "Wed"];
    assert JoinComma(["Mon", "Tue", "Wed"]) == "Mon, Tue, Wed";
  }

  lemma WeekdaysSummary()
    ensures DaysSummary(Weekdays) == "Mon, Tue, Wed +2 more"
  {
    FirstThreeShown(Weekdays);
    assert Decimal(2) == "2";
  }

  lemma ThreeDaysSummary()
    ensures DaysSummary(DaysOfWeek[..3]) == "Mon, Tue, Wed"
  {
    FirstThreeShown(DaysOfWeek[..3]);
  }

  /** The line for the sample weekday schedules, for a single day, and for
      exactly three days. */
  lemma SummaryExamples()
    ensures DaysSummary(Weekdays) == "Mon, Tue, Wed +2 more"
    ensures DaysSummary(["Monday"]) == "Mon"
    ensures DaysSummary(DaysOfWeek[..3]) == "Mon, Tue, Wed"
  {
    WeekdaysSummary();
    ThreeDaysSummary();
    SingleDaySummary();
  }

  lemma SingleDaySummary()
    ensures DaysSummary(["Monday"]) == "Mon"
  {
    assert Abbrev("Monday") == "Mon";
    assert Shown(["Monday"]) == ["Mon"];
  }
}
