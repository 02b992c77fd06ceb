/**
 * `playAudio` and the module-level element cache it fills. A player is the
 * object `playAudio` returns: a closure flag that `play` and `stop` overwrite,
 * and an exposed `isPlaying` field fixed at creation.
 */
module AudioPlayback {

  /** The sound library and the manual controls both arm an auto-stop that
      fires this long after a sound started. Time is not modelled: a timer
      is an event that may fire at any later step. */
  const AutoStopMs: nat := 3000

  /** An opaque audio element; the model never looks inside it. */
  class AudioElement {
    constructor ()
    {
    }
  }

  class Player {
    /** The sound the player was created for. */
    const source: string
    /** The flag the `play` and `stop` closures overwrite. */
    var playing: bool
    /** The `isPlaying` property of the returned object: a copy of the flag
        taken at creation, never updated afterwards. */
    const isPlaying: bool

    constructor (source: string)
      ensures this.source == source && playing && isPlaying
    {
      this.source := source;
      playing := true;
      isPlaying := true;
    }

    method Play()
      modifies this
      ensures playing
    {
      playing := true;
    }

    /** Stopping is harmless however often it is called. */
    method Stop()
      modifies this
      ensures !playing
    {
      playing := false;
    }
  }

  /** The module-level `audioElements` dictionary. */
  class AudioCache {
    var elements: map<string, AudioElement>

    constructor ()
      ensures elements == map[]
    {
      elements := map[];
    }

    /** Creates an element for `soundSource` only when none is cached, and
        returns a fresh player whose flag starts out true. */
    method PlayAudio(soundSource: string) returns (p: Player)
      modifies this
      ensures elements.Keys == old(elements.Keys) + {soundSource}
      ensures forall k :: k in old(elements) ==> elements[k] == old(elements[k])
      ensures soundSource !in old(elements) ==> fresh(elements[soundSource])
      ensures fresh(p) && p.source == soundSource && p.playing && p.isPlaying
    {
      if soundSource !in elements {
        var e := new AudioElement();
        elements := elements[soundSource := e];
      }
      p := new Player(soundSource);
    }
  }

  /** A second `playAudio` of the same sound reuses the cached element and
      leaves the dictionary exactly as it was; both players start playing. */
  method PlayTwiceReusesElement(s: string) returns (before: AudioElement, after: AudioElement, size: nat)
    ensures before == after && size == 1
  {
    var cache := new AudioCache();
    var p1 := cache.PlayAudio(s);
    before := cache.elements[s];
    var p2 := cache.PlayAudio(s);
    after := cache.elements[s];
    size := |cache.elements|;
  }

  /** After `stop`, the internal flag is false but the exposed `isPlaying`
      still reads true; a second `stop` changes nothing. */
  method StopLeavesExposedFlag(s: string) returns (exposed: bool, internal: bool)
    ensures exposed && !internal
  {
    var cache := new AudioCache();
    var p := cache.PlayAudio(s);
    p.Stop();
    p.Stop();
    exposed, internal := p.isPlaying, p.playing;
  }
}
