/**
 * The dashboard page: the same schedule list state with toggle, delete and
 * edit handlers (no add dialog), and the upcoming card fed from it.
 */
module Index {
  import opened AudioUtils
  import opened ScheduleList
  import opened Upcoming

  class Page {
    var schedules: seq<AudioSchedule>

    constructor ()
      ensures schedules == SampleSchedules
    {
      schedules := SampleSchedules;
    }

    method ToggleSchedule(id: string, isActive: bool)
      modifies this
      ensures schedules == Toggled(old(schedules), id, isActive)
    {
      schedules := Toggled(schedules, id, isActive);
    }

    /** The edit handler only shows a notice. */
    method EditSchedule(schedule: AudioSchedule)
      ensures schedules == old(schedules)
    {
    }

    method DeleteSchedule(id: string)
      modifies this
      ensures schedules == Deleted(old(schedules), id)
      ensures !HasId(old(schedules), id) ==> schedules == old(schedules)
    {
      DeleteAbsentIsNoOp(schedules, id);
      schedules := Deleted(schedules, id);
    }

    /** What the upcoming card shows, computed from the current list: its
        active schedules, each as often as the list holds it, in time order. */
    function UpcomingView(): (r: seq<AudioSchedule>)
      reads this
      ensures forall x :: x in r <==> x in schedules && x.isActive
      ensures forall x :: multiset(r)[x] == if x.isActive then multiset(schedules)[x] else 0
      ensures SortedByTime(r)
    {
      UpcomingSpec(schedules);
      UpcomingOf(schedules)
    }
  }

  lemma ActiveAfterSwitchOff(s: seq<AudioSchedule>)
    requires s == Toggled(SampleSchedules, "2", false)
    ensures ActiveOnly(s) == [SampleSchedules[0], SampleSchedules[2]]
  {
    var t := SampleSchedules;
    assert s[0] == t[0] && s[2] == t[2] && s[3] == t[3] && !s[1].isActive;
    assert ActiveOnly(s[3..]) == [];
    assert s[2..][1..] == s[3..];
    assert ActiveOnly(s[2..]) == [t[2]];
    assert s[1..][1..] == s[2..];
    assert ActiveOnly(s[1..]) == [t[2]];
  }

  lemma SortOfOrderedTwo(a: AudioSchedule, b: AudioSchedule)
    requires TimeOfDay.ClockLe(Key(a), Key(b))
    ensures SortByTime([a, b]) == [a, b]
  {
    assert [a, b][1..] == [b] && [b][1..] == [];
    assert SortByTime([b]) == [b];
    assert SortByTime([a, b]) == Insert(a, [b]) == [a, b];
  }

  lemma UpcomingAfterSwitchOff(s: seq<AudioSchedule>)
    requires s == Toggled(SampleSchedules, "2", false)
    ensures UpcomingOf(s) == [SampleSchedules[0], SampleSchedules[2]]
  {
    ActiveAfterSwitchOff(s);
    SampleOrdered();
    SortOfOrderedTwo(SampleSchedules[0], SampleSchedules[2]);
  }

  /** Switching the 12:30 bell off on the dashboard drops it from the
      upcoming card, which then shows 08:00 and 15:30. */
  method SwitchOffLunchBell() returns (shown: seq<string>)
    ensures shown == ["08:00", "15:30"]
  {
    var page := new Page();
    page.ToggleSchedule("2", false);
    UpcomingAfterSwitchOff(page.schedules);
    var view := page.UpcomingView();
    shown := [view[0].timeString, view[1].timeString];
  }
}
