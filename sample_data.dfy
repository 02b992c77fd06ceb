/**
 * Facts about the demonstration schedules the dashboard starts from: each
 * would pass the schedule form's rules, their ids are distinct, and each
 * names a sound the catalog lists under its category.
 */
module SampleData {
  import opened AudioUtils
  import opened TimeOfDay
  import opened ScheduleForm

  /** A schedule whose fields keep the form's bounds passes validation. */
  lemma PassesForm(s: AudioSchedule, h: nat, m: nat)
    requires h < 24 && m < 60 && s.timeString == Pad2(h) + ":" + Pad2(m)
    requires |s.name| >= 2 && s.soundType != Chime && s.daysActive != []
    requires 1.0 <= s.duration <= 300.0 && 1.0 <= s.repetitions <= 10.0
    ensures Validate(ValuesOf(s)) == []
  {
    PaddedTimeAccepted(h, m);
    ValidateReportsEachRule(ValuesOf(s));
  }

  lemma MorningBellPassesForm()
    ensures Validate(ValuesOf(SampleSchedules[0])) == []
  {
    assert SampleSchedules[0].timeString == Pad2(8) + ":" + Pad2(0);
    PassesForm(SampleSchedules[0], 8, 0);
  }

  lemma LunchBreakPassesForm()
    ensures Validate(ValuesOf(SampleSchedules[1])) == []
  {
    assert SampleSchedules[1].timeString == Pad2(12) + ":" + Pad2(30);
    PassesForm(SampleSchedules[1], 12, 30);
  }

  lemma DismissalPassesForm()
    ensures Validate(ValuesOf(SampleSchedules[2])) == []
  {
    assert SampleSchedules[2].timeString == Pad2(15) + ":" + Pad2(30);
    PassesForm(SampleSchedules[2], 15, 30);
  }

  lemma AssemblyPassesForm()
    ensures Validate(ValuesOf(SampleSchedules[3])) == []
  {
    assert SampleSchedules[3].timeString == Pad2(9) + ":" + Pad2(45);
    PassesForm(SampleSchedules[3], 9, 45);
  }

  /** Every sample schedule could have been entered through the form. */
  lemma SampleSchedulesPassForm()
    ensures forall i :: 0 <= i < |SampleSchedules| ==> Validate(ValuesOf(SampleSchedules[i])) == []
  {
    forall i | 0 <= i < |SampleSchedules|
      ensures Validate(ValuesOf(SampleSchedules[i])) == []
    {
      if i == 0 {
        MorningBellPassesForm();
      } else if i == 1 {
        LunchBreakPassesForm();
      } else if i == 2 {
        DismissalPassesForm();
      } else {
        AssemblyPassesForm();
      }
    }
  }

  /** No two sample schedules share an id. */
  lemma SampleIdsDistinct()
    ensures forall i, j :: 0 <= i < j < |SampleSchedules| ==> SampleSchedules[i].id != SampleSchedules[j].id
  {
    assert SampleSchedules[0].id == "1" && SampleSchedules[1].id == "2";
    assert SampleSchedules[2].id == "3" && SampleSchedules[3].id == "4";
  }

  lemma SampleSourcesInCatalog()
    ensures forall i :: 0 <= i < |SampleSchedules| ==>
      SampleSchedules[i].soundSource in CatalogIds(SampleSchedules[i].soundType)
  {
    assert CatalogIds(Bell) == ["bell-1", "bell-2", "bell-3"];
    assert CatalogIds(Voice) == ["voice-1", "voice-2"];
  }
}
