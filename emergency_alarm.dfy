/**
 * The emergency alert card: a selection staged by a type button, a
 * confirmation dialog, and the active alarm. Confirming always sounds
 * `alarm-1`, whichever type was selected, and stopping clears the flags
 * without stopping that sound.
 */
module EmergencyAlarm {
  import opened Wrappers
  import opened AudioPlayback

  datatype EmergencyType = EmergencyType(id: string, name: string)

  const EmergencyTypes: seq<EmergencyType> := [
    EmergencyType("fire", "Fire Alarm"),
    EmergencyType("earthquake", "Earthquake"),
    EmergencyType("lockdown", "Lockdown"),
    EmergencyType("evacuation", "Evacuation")
  ]

  /** The sound every confirmed alarm plays. */
  const AlarmSound: string := "alarm-1"

  /** `emergencyTypes.find(e => e.id === selected)?.name`. */
  function NameOf(types: seq<EmergencyType>, selected: Option<string>): (r: Option<string>)
    ensures r.Some? <==> selected.Some? && exists i :: 0 <= i < |types| && types[i].id == selected.value
    ensures r.Some? ==> exists i :: 0 <= i < |types| && types[i].id == selected.value && types[i].name == r.value
  {
    if types == [] || selected.None? then None
    else if types[0].id == selected.value then Some(types[0].name)
    else
      var r := NameOf(types[1..], selected);
      assert forall i :: 1 <= i < |types| ==> types[i] == types[1..][i - 1];
      r
  }

  /** The first entry with a matching id wins. */
  lemma {:induction false} NameOfFirstMatch(types: seq<EmergencyType>, k: nat)
    requires k < |types|
    requires forall i :: 0 <= i < k ==> types[i].id != types[k].id
    ensures NameOf(types, Some(types[k].id)) == Some(types[k].name)
  {
    if k > 0 {
      NameOfFirstMatch(types[1..], k - 1);
    }
  }

  class Card {
    const audio: AudioCache
    var isAlarmActive: bool
    var showConfirmDialog: bool
    var selectedAlarm: Option<string>
    /** The players confirmations started; the card drops them. */
    var sounding: seq<Player>

    ghost predicate Valid()
      reads this
    {
      && (showConfirmDialog ==> selectedAlarm.Some? && !isAlarmActive)
      && (isAlarmActive ==> selectedAlarm.Some?)
    }

    constructor (audio: AudioCache)
      ensures Valid() && this.audio == audio
      ensures !isAlarmActive && !showConfirmDialog && selectedAlarm == None && sounding == []
    {
      this.audio := audio;
      isAlarmActive := false;
      showConfirmDialog := false;
      selectedAlarm := None;
      sounding := [];
    }

    /** A type button, rendered only while no alarm is active. */
    method TriggerAlarm(alarmId: string)
      requires Valid() && !isAlarmActive
      modifies this
      ensures Valid()
      ensures selectedAlarm == Some(alarmId) && showConfirmDialog && !isAlarmActive
      ensures sounding == old(sounding)
    {
      selectedAlarm := Some(alarmId);
      showConfirmDialog := true;
    }

    /** The dialog's action button. */
    method ConfirmAlarm()
      requires Valid() && showConfirmDialog
      modifies this, audio
      ensures Valid()
      ensures !showConfirmDialog && isAlarmActive && selectedAlarm == old(selectedAlarm)
      ensures |sounding| == |old(sounding)| + 1 && sounding[..|old(sounding)|] == old(sounding)
      ensures fresh(sounding[|old(sounding)|])
      ensures sounding[|old(sounding)|].source == AlarmSound && sounding[|old(sounding)|].playing
      ensures audio.elements.Keys == old(audio.elements.Keys) + {AlarmSound}
      ensures forall k :: k in old(audio.elements) ==> audio.elements[k] == old(audio.elements[k])
    {
      showConfirmDialog := false;
      isAlarmActive := true;
      var player := audio.PlayAudio(AlarmSound);
      sounding := sounding + [player];
    }

    /** The dialog's cancel button, or dismissing it: only the dialog closes. */
    method CancelDialog()
      requires Valid() && showConfirmDialog
      modifies this
      ensures Valid()
      ensures !showConfirmDialog && !isAlarmActive && selectedAlarm == old(selectedAlarm)
      ensures sounding == old(sounding)
    {
      showConfirmDialog := false;
    }

    /** The stop button, rendered only while the alarm is active. It touches
        no player. */
    method StopAlarm()
      requires Valid() && isAlarmActive
      modifies this
      ensures Valid()
      ensures !isAlarmActive && selectedAlarm == None && showConfirmDialog == old(showConfirmDialog)
      ensures sounding == old(sounding)
    {
      isAlarmActive := false;
      selectedAlarm := None;
    }
  }

  /** Confirming a lockdown sounds `alarm-1`, and the card names the protocol. */
  method LockdownSoundsAlarmOne() returns (shown: Option<string>, source: string, playing: bool)
    ensures shown == Some("Lockdown") && source == "alarm-1" && playing
  {
    var audio := new AudioCache();
    var card := new Card(audio);
    card.TriggerAlarm("lockdown");
    card.ConfirmAlarm();
    NameOfFirstMatch(EmergencyTypes, 2);
    shown := NameOf(EmergencyTypes, card.selectedAlarm);
    source, playing := card.sounding[0].source, card.sounding[0].playing;
  }

  /** After stopping, the card is idle but the alarm sound plays on. */
  method StopLeavesAlarmSounding() returns (active: bool, selected: Option<string>, stillPlaying: bool)
    ensures !active && selected == None && stillPlaying
  {
    var audio := new AudioCache();
    var card := new Card(audio);
    card.TriggerAlarm("fire");
    card.ConfirmAlarm();
    card.StopAlarm();
    active, selected, stillPlaying := card.isAlarmActive, card.selectedAlarm, card.sounding[0].playing;
  }

  /** Cancelling keeps the staged selection and plays nothing. */
  method CancelKeepsSelection() returns (dialog: bool, active: bool, selected: Option<string>, started: nat)
    ensures !dialog && !active && selected == Some("earthquake") && started == 0
  {
    var audio := new AudioCache();
    var card := new Card(audio);
    card.TriggerAlarm("earthquake");
    card.CancelDialog();
    dialog, active, selected, started := card.showConfirmDialog, card.isAlarmActive, card.selectedAlarm, |card.sounding|;
  }

  /** Two alarms in a row share one cached `alarm-1` element. */
  method RepeatedAlarmsShareElement() returns (cached: set<string>, players: nat, first: AudioElement, second: AudioElement)
    ensures cached == {"alarm-1"} && players == 2
    ensures first == second
  {
    var audio := new AudioCache();
    var card := new Card(audio);
    card.TriggerAlarm("fire");
    card.ConfirmAlarm();
    first := audio.elements[AlarmSound];
    card.StopAlarm();
    card.TriggerAlarm("evacuation");
    card.ConfirmAlarm();
    second := audio.elements[AlarmSound];
    cached, players := audio.elements.Keys, |card.sounding|;
  }
}
