/**
 * The manual bell controls: one `isPlaying` flag and one `activeSound`
 * that always change together. A click while anything plays only resets
 * the pair; it neither starts the clicked sound nor stops the player that
 * is sounding, which the card never keeps.
 */
module ManualControls {
  import opened Wrappers
  import opened AudioPlayback

  /** The ids of the five buttons, in display order. */
  const ManualSounds: seq<string> := ["bell-1", "bell-2", "bell-3", "voice-1", "voice-2"]

  class Panel {
    const audio: AudioCache
    var isPlaying: bool
    var activeSound: Option<string>
    /** Auto-stop timers armed and not yet fired; they are indistinguishable. */
    var armedTimers: nat
    /** The players `playAudio` returned; the card drops them, so nothing
        ever stops them. */
    var dropped: seq<Player>

    /** The pair changes together, and only the five buttons' sounds are
        ever shown or started. */
    ghost predicate Valid()
      reads this
    {
      && (isPlaying <==> activeSound.Some?)
      && (activeSound.Some? ==> activeSound.value in ManualSounds)
      && forall i :: 0 <= i < |dropped| ==> dropped[i].source in ManualSounds
    }

    constructor (audio: AudioCache)
      ensures Valid() && this.audio == audio
      ensures !isPlaying && activeSound == None && armedTimers == 0 && dropped == []
    {
      this.audio := audio;
      isPlaying := false;
      activeSound := None;
      armedTimers := 0;
      dropped := [];
    }

    /** The button of `id` shows the playing wave. */
    predicate Highlighted(id: string)
      reads this
    {
      activeSound == Some(id) && isPlaying
    }

    /** A click on the button of `soundId`. */
    method HandlePlay(soundId: string)
      requires Valid() && soundId in ManualSounds
      modifies this, audio
      ensures Valid()
      // while anything plays, a click of any button only resets the pair
      ensures old(isPlaying) ==>
        && !isPlaying && activeSound == None
        && armedTimers == old(armedTimers) && dropped == old(dropped)
        && audio.elements == old(audio.elements)
      // otherwise the clicked sound starts and one more auto-stop is armed
      ensures !old(isPlaying) ==>
        && isPlaying && activeSound == Some(soundId)
        && armedTimers == old(armedTimers) + 1
        && |dropped| == |old(dropped)| + 1 && dropped[..|old(dropped)|] == old(dropped)
        && fresh(dropped[|old(dropped)|]) && dropped[|old(dropped)|].source == soundId
        && dropped[|old(dropped)|].playing
        && audio.elements.Keys == old(audio.elements.Keys) + {soundId}
      ensures forall k :: k in old(audio.elements) ==> audio.elements[k] == old(audio.elements[k])
    {
      if isPlaying {
        isPlaying := false;
        activeSound := None;
        return;
      }
      isPlaying := true;
      activeSound := Some(soundId);
      var player := audio.PlayAudio(soundId);
      dropped := dropped + [player];
      armedTimers := armedTimers + 1;
    }

    /** One armed auto-stop (`AutoStopMs` after its start) fires and resets
        the pair, whatever is playing. */
    method FireTimer()
      requires Valid() && armedTimers > 0
      modifies this
      ensures Valid()
      ensures !isPlaying && activeSound == None
      ensures armedTimers == old(armedTimers) - 1 && dropped == old(dropped)
    {
      isPlaying := false;
      activeSound := None;
      armedTimers := armedTimers - 1;
    }
  }

  /** A second button pressed while the first sounds does not start: the
      panel goes idle and the first player keeps playing. */
  method NeverPreempts() returns (playing: bool, active: Option<string>, started: nat, firstPlaying: bool)
    ensures !playing && active == None
    ensures started == 1 && firstPlaying
  {
    var audio := new AudioCache();
    var panel := new Panel(audio);
    panel.HandlePlay("bell-1");
    panel.HandlePlay("voice-1");
    playing, active, started := panel.isPlaying, panel.activeSound, |panel.dropped|;
    firstPlaying := panel.dropped[0].playing;
  }

  /** Stop, then play another sound: the first sound's auto-stop, still
      armed, resets the panel although the second sound has just started. */
  method StaleTimerResets() returns (playing: bool, active: Option<string>, armed: nat, secondPlaying: bool)
    ensures !playing && active == None && armed == 1 && secondPlaying
  {
    var audio := new AudioCache();
    var panel := new Panel(audio);
    panel.HandlePlay("bell-1");
    panel.HandlePlay("bell-1");
    panel.HandlePlay("bell-2");
    panel.FireTimer();
    playing, active, armed := panel.isPlaying, panel.activeSound, panel.armedTimers;
    secondPlaying := panel.dropped[1].playing;
  }

  /** Exactly the clicked button is highlighted after a start. */
  method OnlyClickedHighlighted(i: nat, j: nat) returns (clicked: bool, other: bool)
    requires i < |ManualSounds| && j < |ManualSounds| && i != j
    ensures clicked && !other
  {
    var audio := new AudioCache();
    var panel := new Panel(audio);
    panel.HandlePlay(ManualSounds[i]);
    clicked := panel.Highlighted(ManualSounds[i]);
    other := panel.Highlighted(ManualSounds[j]);
  }
}
