/**
 * The sound library card: which sound is playing, the players it has
 * started (one per sound id), the auto-stop timers it has armed, and the
 * effect cleanup. A timer is an event the environment delivers later;
 * nothing ties it to the sound that is playing when it fires. The cleanup
 * runs with the map of the previous render whenever the map changes (after
 * every start) and with the current map on unmount.
 */
module SoundLibrary {
  import opened Wrappers
  import opened AudioPlayback

  /** A call the card makes on a player, or its `onPlay` callback. */
  datatype Call = StopCall(source: string) | PlayCall(source: string) | OnPlay(id: string)

  /** The calls a click on a different id makes before starting its sound:
      the previous sound is stopped only when its id is truthy (non-empty). */
  function PreemptCalls(prev: Option<string>, players: map<string, Player>): seq<Call>
  {
    if prev.Some? && prev.value != "" && prev.value in players then [StopCall(prev.value)] else []
  }

  /** Each key holds the player made for that source. */
  ghost predicate Keyed(players: map<string, Player>)
  {
    forall k :: k in players ==> players[k].source == k
  }

  /** No two stored players are playing at once. */
  ghost predicate AtMostOnePlaying(players: map<string, Player>)
    reads players.Values
  {
    forall j, k :: j in players && k in players && players[j].playing && players[k].playing ==> j == k
  }

  class Library {
    const audio: AudioCache
    var playingSound: Option<string>
    var audioPlayers: map<string, Player>
    /** The players captured by the auto-stop timers still to fire. */
    var timers: seq<Player>
    /** The player calls and callbacks of the handlers and timers, in order.
        The effect cleanup's calls are not logged: their order follows the
        map's insertion order, which the model does not keep. */
    var log: seq<Call>

    ghost predicate Valid()
      reads this, audioPlayers.Values
    {
      && (playingSound.Some? ==> playingSound.value in audioPlayers)
      && Keyed(audioPlayers)
      && AtMostOnePlaying(audioPlayers)
    }

    constructor (audio: AudioCache)
      ensures Valid() && this.audio == audio
      ensures playingSound == None && audioPlayers == map[] && timers == [] && log == []
    {
      this.audio := audio;
      playingSound := None;
      audioPlayers := map[];
      timers := [];
      log := [];
    }

    /** A sound shows as playing when it is the one recorded as playing. */
    predicate ShowsPlaying(id: string)
      reads this
    {
      playingSound == Some(id)
    }

    /** A click on the play button of sound `id`, followed, when the click
        changed the player map, by the cleanup of the previous render's
        effect, which stops every player of the map as it was before. */
    method HandlePlay(id: string)
      requires Valid()
      modifies this, audio, audioPlayers.Values
      ensures Valid()
      ensures forall k :: k in old(audio.elements) ==> k in audio.elements && audio.elements[k] == old(audio.elements[k])
      // clicking the sound that is playing stops its player and nothing else
      ensures old(playingSound) == Some(id) ==>
        && playingSound == None
        && audioPlayers == old(audioPlayers) && timers == old(timers)
        && !audioPlayers[id].playing
        && (forall k :: k in audioPlayers && k != id ==> audioPlayers[k].playing == old(audioPlayers[k].playing))
        && log == old(log) + [StopCall(id)]
        && audio.elements == old(audio.elements)
      // clicking any other sound stops the previous one, starts a fresh
      // player, and the cleanup then stops every player stored before
      ensures old(playingSound) != Some(id) ==>
        && playingSound == Some(id)
        && id in audioPlayers && fresh(audioPlayers[id]) && audioPlayers[id].playing
        && audioPlayers == old(audioPlayers)[id := audioPlayers[id]]
        && timers == old(timers) + [audioPlayers[id]]
        && log == old(log) + PreemptCalls(old(playingSound), old(audioPlayers)) + [PlayCall(id), OnPlay(id)]
        && audio.elements.Keys == old(audio.elements.Keys) + {id}
        && (forall k :: k in old(audioPlayers) ==> !old(audioPlayers)[k].playing)
    {
      if playingSound == Some(id) {
        if id in audioPlayers {
          StopStored(id);
        }
        playingSound := None;
      } else {
        var previous := audioPlayers;
        if playingSound.Some? && playingSound.value != "" && playingSound.value in audioPlayers {
          StopStored(playingSound.value);
        }
        StartFresh(id);
        StopAll(previous);
        assert forall k :: k in audioPlayers && k != id ==> audioPlayers[k] == previous[k];
      }
    }

    /** Stops the player stored under `k`. Each key holds a player of its
        own, so no other stored player changes. */
    method StopStored(k: string)
      requires Valid() && k in audioPlayers
      modifies this, audioPlayers[k]
      ensures Valid()
      ensures playingSound == old(playingSound) && audioPlayers == old(audioPlayers) && timers == old(timers)
      ensures !audioPlayers[k].playing && log == old(log) + [StopCall(k)]
      ensures forall j :: j in audioPlayers && j != k ==> audioPlayers[j].playing == old(audioPlayers[j].playing)
    {
      audioPlayers[k].Stop();
      log := log + [StopCall(k)];
    }

    /** Plays a fresh player for `id`, stores it under `id`, records `id` as
        playing, reports `onPlay` and arms the player's auto-stop. */
    method StartFresh(id: string)
      requires Keyed(audioPlayers)
      modifies this, audio
      ensures Keyed(audioPlayers)
      ensures playingSound == Some(id)
      ensures id in audioPlayers && fresh(audioPlayers[id]) && audioPlayers[id].playing
      ensures audioPlayers == old(audioPlayers)[id := audioPlayers[id]]
      ensures timers == old(timers) + [audioPlayers[id]]
      ensures log == old(log) + [PlayCall(id), OnPlay(id)]
      ensures audio.elements.Keys == old(audio.elements.Keys) + {id}
      ensures forall k :: k in old(audio.elements) ==> audio.elements[k] == old(audio.elements[k])
    {
      var player := audio.PlayAudio(id);
      player.Play();
      log := log + [PlayCall(id)];
      playingSound := Some(id);
      audioPlayers := audioPlayers[id := player];
      log := log + [OnPlay(id)];
      timers := timers + [player];
    }

    /** The `k`-th armed auto-stop fires (`AutoStopMs` after its start): it
        stops the player it captured and clears the playing sound, whichever
        sound is playing by then. */
    method FireTimer(k: nat)
      requires Valid() && k < |timers|
      modifies this, timers[k]
      ensures Valid()
      ensures !old(timers[k]).playing
      ensures playingSound == None
      ensures timers == old(timers[..k] + timers[k + 1..])
      ensures audioPlayers == old(audioPlayers)
      ensures log == old(log) + [StopCall(old(timers[k]).source)]
    {
      var player := timers[k];
      player.Stop();
      log := log + [StopCall(player.source)];
      playingSound := None;
      timers := timers[..k] + timers[k + 1..];
    }

    /** The unmount cleanup: every stored player is stopped. */
    method Unmount()
      modifies audioPlayers.Values
      ensures forall k :: k in audioPlayers ==> !audioPlayers[k].playing
    {
      StopAll(audioPlayers);
    }
  }

  /** `Object.values(players).forEach(player => player.stop())`. */
  method StopAll(players: map<string, Player>)
    modifies players.Values
    ensures forall k :: k in players ==> !players[k].playing
  {
    var rest := players.Values;
    while rest != {}
      invariant rest <= players.Values
      invariant forall p :: p in players.Values && p !in rest ==> !p.playing
      decreases rest
    {
      var p :| p in rest;
      p.Stop();
      rest := rest - {p};
    }
  }

  /** Clicking the playing sound again stops it: one player was started,
      one `onPlay` was reported, and nothing is left playing. */
  method SameSoundTwice() returns (shown: Option<string>, calls: seq<Call>, stillPlaying: bool)
    ensures shown == None
    ensures calls == [PlayCall("bell-1"), OnPlay("bell-1"), StopCall("bell-1")]
    ensures !stillPlaying
  {
    var audio := new AudioCache();
    var lib := new Library(audio);
    lib.HandlePlay("bell-1");
    lib.HandlePlay("bell-1");
    shown, calls := lib.playingSound, lib.log;
    stillPlaying := lib.audioPlayers["bell-1"].playing;
  }

  /** A different sound preempts: the first player is stopped before the
      second is played, and only the second reports `onPlay` afterwards. */
  method PreemptStopsFirst() returns (shown: Option<string>, calls: seq<Call>, first: bool, second: bool)
    ensures shown == Some("music-2")
    ensures calls == [PlayCall("bell-1"), OnPlay("bell-1"), StopCall("bell-1"), PlayCall("music-2"), OnPlay("music-2")]
    ensures !first && second
  {
    var audio := new AudioCache();
    var lib := new Library(audio);
    lib.HandlePlay("bell-1");
    var p1 := lib.audioPlayers["bell-1"];
    lib.HandlePlay("music-2");
    shown, calls := lib.playingSound, lib.log;
    first, second := p1.playing, lib.audioPlayers["music-2"].playing;
  }

  /** The stale timer: the first sound's auto-stop, firing after a second
      sound has started, clears the playing sound although the second
      sound's player is still playing. */
  method StaleTimerClearsNewerSound() returns (shown: Option<string>, newerShown: bool, newerPlaying: bool)
    ensures shown == None && !newerShown && newerPlaying
  {
    var audio := new AudioCache();
    var lib := new Library(audio);
    lib.HandlePlay("bell-1");
    lib.HandlePlay("music-2");
    var newer := lib.audioPlayers["music-2"];
    lib.FireTimer(0);
    shown, newerShown, newerPlaying := lib.playingSound, lib.ShowsPlaying("music-2"), newer.playing;
  }

  /** A stale timer leaves the second sound playing with nothing shown as
      playing, so the next start does not preempt it; the effect cleanup
      that follows the start stops it all the same. */
  method OrphanStoppedByNextStart() returns (orphanAfterTimer: bool, shownAfterTimer: Option<string>,
                                             orphanAfterStart: bool, newestPlaying: bool, calls: seq<Call>)
    ensures orphanAfterTimer && shownAfterTimer == None
    ensures !orphanAfterStart && newestPlaying
    ensures calls == [PlayCall("bell-3"), OnPlay("bell-3")]
  {
    var audio := new AudioCache();
    var lib := new Library(audio);
    lib.HandlePlay("bell-1");
    lib.HandlePlay("bell-2");
    var orphan := lib.audioPlayers["bell-2"];
    lib.FireTimer(0);
    orphanAfterTimer, shownAfterTimer := orphan.playing, lib.playingSound;
    var before := |lib.log|;
    lib.HandlePlay("bell-3");
    orphanAfterStart, newestPlaying := orphan.playing, lib.audioPlayers["bell-3"].playing;
    calls := lib.log[before..];
  }
}
