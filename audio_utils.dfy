/**
 * The constant data and record types of the audio utilities: the sound
 * categories, the schedule record, the demonstration sound catalog, the
 * weekday list and the sample schedules the dashboard starts from.
 */
module AudioUtils {
  import opened Wrappers

  /** The five sound categories a schedule may name. */
  datatype SoundType = Bell | Chime | Music | Voice | Alarm

  /** One recurring announcement. `duration` and `repetitions` are JavaScript
      numbers, so they are reals here: nothing forces them to be integers. */
  datatype AudioSchedule = AudioSchedule(
    id: string,
    name: string,
    timeString: string,
    soundType: SoundType,
    soundSource: string,
    duration: real,
    daysActive: seq<string>,
    repetitions: real,
    isActive: bool)

  /** A catalog entry. */
  datatype SoundItem = SoundItem(id: string, name: string, path: string)

  /** The catalog keyed by category; `Chime` has no entry, so the lookup
      yields `None` for it (JavaScript's `undefined`). */
  function SampleSounds(t: SoundType): Option<seq<SoundItem>>
  {
    match t
    case Bell => Some([
      SoundItem("bell-1", "Standard Bell", "/sounds/bell-1.mp3"),
      SoundItem("bell-2", "School Bell", "/sounds/bell-2.mp3"),
      SoundItem("bell-3", "Soft Chime", "/sounds/bell-3.mp3")])
    case Music => Some([
      SoundItem("music-1", "Ambient 1", "/sounds/ambient-1.mp3"),
      SoundItem("music-2", "Classical", "/sounds/classical.mp3"),
      SoundItem("music-3", "Focus", "/sounds/focus.mp3")])
    case Voice => Some([
      SoundItem("voice-1", "Class Change", "/sounds/voice-class-change.mp3"),
      SoundItem("voice-2", "Assembly", "/sounds/voice-assembly.mp3")])
    case Alarm => Some([
      SoundItem("alarm-1", "Fire Alarm", "/sounds/alarm-fire.mp3"),
      SoundItem("alarm-2", "Emergency", "/sounds/alarm-emergency.mp3")])
    case Chime => None
  }

  /** The category names, as the catalog's keys spell them. */
  function TypeName(t: SoundType): string
  {
    match t
    case Bell => "bell"
    case Chime => "chime"
    case Music => "music"
    case Voice => "voice"
    case Alarm => "alarm"
  }

  /** The ids listed in the catalog for `t` (none for a missing category). */
  function CatalogIds(t: SoundType): seq<string>
  {
    match SampleSounds(t)
    case None => []
    case Some(items) => seq(|items|, i requires 0 <= i < |items| => items[i].id)
  }

  /** Every id of the catalog, category by category in declaration order. */
  function AllCatalogIds(): seq<string>
  {
    CatalogIds(Bell) + CatalogIds(Music) + CatalogIds(Voice) + CatalogIds(Alarm)
  }

  predicate NoDuplicates<T(==)>(s: seq<T>)
  {
    forall i, j :: 0 <= i < j < |s| ==> s[i] != s[j]
  }

  predicate IsPrefix(p: string, s: string)
  {
    |p| <= |s| && s[..|p|] == p
  }

  /** The catalog ids are pairwise distinct, and every id starts with its
      category's name followed by a dash. */
  lemma CatalogWellFormed()
    ensures NoDuplicates(AllCatalogIds())
    ensures forall t: SoundType, i :: 0 <= i < |CatalogIds(t)| ==>
              IsPrefix(TypeName(t) + "-", CatalogIds(t)[i])
  {
    var all := AllCatalogIds();
    assert all == ["bell-1", "bell-2", "bell-3", "music-1", "music-2", "music-3",
                   "voice-1", "voice-2", "alarm-1", "alarm-2"];
    assert CatalogIds(Bell) == ["bell-1", "bell-2", "bell-3"];
    assert CatalogIds(Music) == ["music-1", "music-2", "music-3"];
    assert CatalogIds(Voice) == ["voice-1", "voice-2"];
    assert CatalogIds(Alarm) == ["alarm-1", "alarm-2"];
  }

  /** `chime` is a sound type but the catalog has no entry for it; every
      other type has a non-empty entry. */
  lemma ChimeHasNoCatalogEntry()
    ensures forall t :: SampleSounds(t).None? <==> t == Chime
    ensures forall t :: t != Chime ==> |CatalogIds(t)| > 0
  {
  }

  /** The seven weekdays in display order, Monday first. */
  const DaysOfWeek: seq<string> :=
    ["Monday", "Tuesday", "Wednesday", "Thursday", "Friday", "Saturday", "Sunday"]

  const Weekdays: seq<string> := ["Monday", "Tuesday", "Wednesday", "Thursday", "Friday"]

  /** Seven distinct days, Monday first and Sunday last; the sample
      schedules' working week is its first five. */
  lemma DaysOfWeekWellFormed()
    ensures |DaysOfWeek| == 7 && NoDuplicates(DaysOfWeek)
    ensures DaysOfWeek[0] == "Monday" && DaysOfWeek[6] == "Sunday"
    ensures Weekdays == DaysOfWeek[..5]
  {
  }

  /** The four demonstration schedules the registry starts from. */
  const SampleSchedules: seq<AudioSchedule> := [
    AudioSchedule("1", "Morning Bell", "08:00", Bell, "bell-1", 5.0, Weekdays, 1.0, true),
    AudioSchedule("2", "Lunch Break", "12:30", Bell, "bell-2", 8.0, Weekdays, 2.0, true),
    AudioSchedule("3", "Dismissal", "15:30", Bell, "bell-3", 10.0, Weekdays, 3.0, true),
    AudioSchedule("4", "Assembly Announcement", "09:45", Voice, "voice-2", 15.0, ["Monday"], 1.0, false)
  ]
}
