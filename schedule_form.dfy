/**
 * The schedule form: its field rules, the record it submits and the
 * weekday checkboxes.
 */
module ScheduleForm {
  import opened Wrappers
  import opened AudioUtils
  import opened TimeOfDay

  /** What the form hands to its submit handler after validation. */
  datatype FormValues = FormValues(
    name: string,
    timeString: string,
    soundType: SoundType,
    soundSource: string,
    duration: real,
    daysActive: seq<string>,
    repetitions: real)

  /** One message per violated field rule. */
  datatype FieldError =
    | NameTooShort
    | TimeFormat
    | SoundTypeNotOffered
    | DurationTooSmall
    | DurationTooLarge
    | NoDays
    | RepetitionsTooSmall
    | RepetitionsTooLarge

  /** The length a JavaScript string has: one UTF-16 code unit per
      character of the Basic Multilingual Plane, and two (a surrogate pair)
      per character above it. */
  function Utf16Length(s: string): (n: nat)
    ensures |s| <= n <= 2 * |s|
  {
    if s == [] then 0
    else (if s[0] as int > 0xFFFF then 2 else 1) + Utf16Length(s[1..])
  }

  /** The schema's rules, one per message. The name's minimum counts UTF-16
      code units, as JavaScript's string length does. `soundSource` has no rule, and
      duration and repetitions are bounded but may be fractional. */
  predicate Violates(v: FormValues, e: FieldError)
  {
    match e
    case NameTooShort => Utf16Length(v.name) < 2
    case TimeFormat => !MatchesTimePattern(v.timeString)
    case SoundTypeNotOffered => v.soundType == Chime
    case DurationTooSmall => v.duration < 1.0
    case DurationTooLarge => v.duration > 300.0
    case NoDays => |v.daysActive| < 1
    case RepetitionsTooSmall => v.repetitions < 1.0
    case RepetitionsTooLarge => v.repetitions > 10.0
  }

  /** The messages in the order the schema declares its fields. */
  const SchemaOrder: seq<FieldError> := [
    NameTooShort, TimeFormat, SoundTypeNotOffered, DurationTooSmall, DurationTooLarge,
    NoDays, RepetitionsTooSmall, RepetitionsTooLarge]

  function Failing(v: FormValues, rules: seq<FieldError>): seq<FieldError>
  {
    if rules == [] then []
    else (if Violates(v, rules[0]) then [rules[0]] else []) + Failing(v, rules[1..])
  }

  lemma {:induction false} FailingMembers(v: FormValues, rules: seq<FieldError>)
    ensures forall e :: e in Failing(v, rules) <==> e in rules && Violates(v, e)
  {
    if rules != [] {
      FailingMembers(v, rules[1..]);
      assert rules == [rules[0]] + rules[1..];
    }
  }

  /** Every message of the values' broken rules, in schema order. */
  function Validate(v: FormValues): seq<FieldError>
  {
    Failing(v, SchemaOrder)
  }

  lemma SchemaCoversEveryRule()
    ensures forall e :: e in SchemaOrder
  {
    forall e ensures e in SchemaOrder {
      match e
      case NameTooShort =>
      case TimeFormat =>
      case SoundTypeNotOffered =>
      case DurationTooSmall =>
      case DurationTooLarge =>
      case NoDays =>
      case RepetitionsTooSmall =>
      case RepetitionsTooLarge =>
    }
  }

  /** Each message is reported exactly when its rule is broken, and the
      values are accepted exactly when every rule holds. */
  lemma ValidateReportsEachRule(v: FormValues)
    ensures forall e :: e in Validate(v) <==> Violates(v, e)
    ensures Validate(v) == [] <==>
      && Utf16Length(v.name) >= 2
      && MatchesTimePattern(v.timeString)
      && v.soundType != Chime
      && 1.0 <= v.duration <= 300.0
      && v.daysActive != []
      && 1.0 <= v.repetitions <= 10.0
  {
    SchemaCoversEveryRule();
    FailingMembers(v, SchemaOrder);
    if Validate(v) != [] {
      assert Validate(v)[0] in Validate(v);
    }
    assert Violates(v, NameTooShort) <==> NameTooShort in Validate(v);
    assert Violates(v, TimeFormat) <==> TimeFormat in Validate(v);
    assert Violates(v, SoundTypeNotOffered) <==> SoundTypeNotOffered in Validate(v);
    assert Violates(v, DurationTooSmall) <==> DurationTooSmall in Validate(v);
    assert Violates(v, DurationTooLarge) <==> DurationTooLarge in Validate(v);
    assert Violates(v, NoDays) <==> NoDays in Validate(v);
    assert Violates(v, RepetitionsTooSmall) <==> RepetitionsTooSmall in Validate(v);
    assert Violates(v, RepetitionsTooLarge) <==> RepetitionsTooLarge in Validate(v);
  }

  lemma {:induction false} FailingDependsOnVerdicts(v: FormValues, w: FormValues, rules: seq<FieldError>)
    requires forall e :: Violates(v, e) == Violates(w, e)
    ensures Failing(v, rules) == Failing(w, rules)
  {
    if rules != [] {
      FailingDependsOnVerdicts(v, w, rules[1..]);
    }
  }

  /** The sound source is never checked: any string, in the catalog or not,
      leaves the verdict unchanged. */
  lemma SourceIsUnchecked(v: FormValues, source: string)
    ensures Validate(v.(soundSource := source)) == Validate(v)
  {
    FailingDependsOnVerdicts(v.(soundSource := source), v, SchemaOrder);
  }

  /** A single character above the Basic Multilingual Plane, such as the
      bell emoji U+1F514, is two code units long and so meets the name's
      minimum, while a single letter does not. */
  lemma NameCountsCodeUnits(v: FormValues)
    ensures Utf16Length(['\U{1F514}']) == 2
    ensures !Violates(v.(name := ['\U{1F514}']), NameTooShort)
    ensures Violates(v.(name := "A"), NameTooShort)
  {
    assert ['\U{1F514}'][1..] == [];
    assert "A"[1..] == [];
  }

  /** Fractional values inside the bounds pass, the bounds themselves are
      inclusive, and a value just outside them is refused. */
  lemma FractionalBoundsAccepted(v: FormValues)
    requires Utf16Length(v.name) >= 2 && MatchesTimePattern(v.timeString) && v.soundType != Chime && v.daysActive != []
    ensures Validate(v.(duration := 2.5, repetitions := 1.5)) == []
    ensures Validate(v.(duration := 1.0, repetitions := 10.0)) == []
    ensures Validate(v.(duration := 300.0, repetitions := 1.0)) == []
    ensures Validate(v.(duration := 300.5, repetitions := 1.0)) != []
    ensures Validate(v.(duration := 5.0, repetitions := 0.5)) != []
  {
    ValidateReportsEachRule(v.(duration := 2.5, repetitions := 1.5));
    ValidateReportsEachRule(v.(duration := 1.0, repetitions := 10.0));
    ValidateReportsEachRule(v.(duration := 300.0, repetitions := 1.0));
    ValidateReportsEachRule(v.(duration := 300.5, repetitions := 1.0));
    ValidateReportsEachRule(v.(duration := 5.0, repetitions := 0.5));
  }

  /** The form's values taken from a schedule (`defaultValues: initialData`). */
  function ValuesOf(s: AudioSchedule): FormValues
  {
    FormValues(s.name, s.timeString, s.soundType, s.soundSource, s.duration, s.daysActive, s.repetitions)
  }

  /** The initial values: those of the schedule being edited, or the blanks. */
  function DefaultValues(initialData: Option<AudioSchedule>): FormValues
  {
    match initialData
    case Some(s) => ValuesOf(s)
    case None => FormValues("", "", Bell, "", 5.0, [], 1.0)
  }

  lemma {:induction false} FailingConcat(v: FormValues, a: seq<FieldError>, b: seq<FieldError>)
    ensures Failing(v, a + b) == Failing(v, a) + Failing(v, b)
  {
    if a != [] {
      assert (a + b)[1..] == a[1..] + b;
      FailingConcat(v, a[1..], b);
    } else {
      assert a + b == b;
    }
  }

  lemma BlankHeadFails(b: FormValues)
    requires b == DefaultValues(None)
    ensures Failing(b, [NameTooShort, TimeFormat, SoundTypeNotOffered]) == [NameTooShort, TimeFormat]
  {
    assert Violates(b, NameTooShort) && Violates(b, TimeFormat) && !Violates(b, SoundTypeNotOffered);
  }

  lemma BlankTailFails(b: FormValues)
    requires b == DefaultValues(None)
    ensures Failing(b, [DurationTooSmall, DurationTooLarge, NoDays, RepetitionsTooSmall, RepetitionsTooLarge]) == [NoDays]
  {
  }

  /** An untouched blank form is refused for its name, its time and its
      days, in that order, and for nothing else. */
  lemma BlankFormRefused()
    ensures Validate(DefaultValues(None)) == [NameTooShort, TimeFormat, NoDays]
  {
    var b := DefaultValues(None);
    var head := [NameTooShort, TimeFormat, SoundTypeNotOffered];
    var tail := [DurationTooSmall, DurationTooLarge, NoDays, RepetitionsTooSmall, RepetitionsTooLarge];
    assert SchemaOrder == head + tail;
    FailingConcat(b, head, tail);
    BlankHeadFails(b);
    BlankTailFails(b);
  }

  /** `handleSubmit`: the id of the edited schedule when it is truthy (a
      non-empty string), else the fresh id; the form's fields; and an active
      flag that `initialData?.isActive || true` makes always true. */
  function Submit(values: FormValues, initialData: Option<AudioSchedule>, freshId: string): AudioSchedule
  {
    var id := if initialData.Some? && initialData.value.id != "" then initialData.value.id else freshId;
    var wasActive := initialData.Some? && initialData.value.isActive;
    AudioSchedule(id, values.name, values.timeString, values.soundType, values.soundSource,
                  values.duration, values.daysActive, values.repetitions, wasActive || true)
  }

  /** The submitted record carries exactly the submitted field values, keeps
      the edited schedule's id, takes the fresh id for a new one, and is
      active whatever the edited schedule's flag was. */
  lemma SubmitRecord(values: FormValues, initialData: Option<AudioSchedule>, freshId: string)
    ensures ValuesOf(Submit(values, initialData, freshId)) == values
    ensures initialData.Some? && initialData.value.id != "" ==>
              Submit(values, initialData, freshId).id == initialData.value.id
    ensures initialData.None? || initialData.value.id == "" ==> Submit(values, initialData, freshId).id == freshId
    ensures Submit(values, initialData, freshId).isActive
  {
  }

  /** Submitting an edit form unchanged gives back the edited schedule, except
      that an inactive schedule comes back active. */
  lemma UnchangedEditReactivates(s: AudioSchedule, freshId: string)
    requires s.id != ""
    ensures Submit(DefaultValues(Some(s)), Some(s), freshId) == s.(isActive := true)
    ensures !s.isActive ==> Submit(DefaultValues(Some(s)), Some(s), freshId) != s
  {
  }

  /** `days` without any occurrence of `day`, in their original order. */
  function WithoutDay(days: seq<string>, day: string): (r: seq<string>)
    ensures |r| <= |days|
  {
    if days == [] then []
    else if days[0] == day then WithoutDay(days[1..], day)
    else [days[0]] + WithoutDay(days[1..], day)
  }

  /** The checkbox handler: checking appends the day, unchecking filters it out. */
  function ToggleDay(days: seq<string>, day: string, checked: bool): seq<string>
  {
    if checked then days + [day] else WithoutDay(days, day)
  }

  /** A checkbox shows as checked when its day is in the list. */
  predicate DayChecked(days: seq<string>, day: string)
  {
    day in days
  }

  lemma {:induction false} WithoutDayCounts(days: seq<string>, day: string)
    ensures day !in WithoutDay(days, day)
    ensures forall d :: d != day ==> multiset(WithoutDay(days, day))[d] == multiset(days)[d]
  {
    if days != [] {
      WithoutDayCounts(days[1..], day);
      assert days == [days[0]] + days[1..];
    }
  }

  lemma {:induction false} WithoutDayConcat(a: seq<string>, b: seq<string>, day: string)
    ensures WithoutDay(a + b, day) == WithoutDay(a, day) + WithoutDay(b, day)
  {
    if a != [] {
      assert (a + b)[1..] == a[1..] + b;
      WithoutDayConcat(a[1..], b, day);
    } else {
      assert a + b == b;
    }
  }

  lemma {:induction false} WithoutAbsentDay(days: seq<string>, day: string)
    requires day !in days
    ensures WithoutDay(days, day) == days
  {
    if days != [] {
      WithoutAbsentDay(days[1..], day);
    }
  }

  /** Checking appends the day at the end; unchecking removes every
      occurrence of it and keeps every other day, as often as it was there,
      in its original order. */
  lemma ToggleDayEffect(days: seq<string>, day: string)
    ensures ToggleDay(days, day, true)[..|days|] == days
    ensures |ToggleDay(days, day, true)| == |days| + 1 && DayChecked(ToggleDay(days, day, true), day)
    ensures !DayChecked(ToggleDay(days, day, false), day)
    ensures forall d :: d != day ==> multiset(ToggleDay(days, day, false))[d] == multiset(days)[d]
    ensures forall i :: 0 <= i <= |days| ==>
              ToggleDay(days, day, false) == WithoutDay(days[..i], day) + WithoutDay(days[i..], day)
  {
    WithoutDayCounts(days, day);
    forall i | 0 <= i <= |days|
      ensures ToggleDay(days, day, false) == WithoutDay(days[..i], day) + WithoutDay(days[i..], day)
    {
      assert days == days[..i] + days[i..];
      WithoutDayConcat(days[..i], days[i..], day);
    }
  }

  /** Checking an unchecked day and unchecking it again restores the list. */
  lemma CheckThenUncheckRestores(days: seq<string>, day: string)
    requires !DayChecked(days, day)
    ensures ToggleDay(ToggleDay(days, day, true), day, false) == days
  {
    WithoutDayConcat(days, [day], day);
    WithoutAbsentDay(days, day);
    assert WithoutDay([day], day) == [];
  }

  /** The sounds offered for a type: its catalog entry, or none at all. */
  function AvailableSounds(t: SoundType): seq<SoundItem>
  {
    match SampleSounds(t)
    case Some(items) => items
    case None => []
  }

  /** Only `chime` offers no sound, and every offered sound belongs to the
      chosen category. */
  lemma AvailableSoundsOfType(t: SoundType)
    ensures AvailableSounds(t) == [] <==> t == Chime
    ensures forall i :: 0 <= i < |AvailableSounds(t)| ==>
              IsPrefix(TypeName(t) + "-", AvailableSounds(t)[i].id)
  {
    CatalogWellFormed();
    forall i | 0 <= i < |AvailableSounds(t)|
      ensures IsPrefix(TypeName(t) + "-", AvailableSounds(t)[i].id)
    {
      assert AvailableSounds(t)[i].id == CatalogIds(t)[i];
    }
  }
}
