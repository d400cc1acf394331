/**
  The conductor of `models/conductor.py`: it holds the tempo and derives
  the length of one beat when started.
 */
module Conductors {
  import opened Wrappers

  const SecondsPerMinute: real := 60.0

  /** `60 / bpm`: the length of one beat in seconds, undefined for a tempo of 0. */
  function SecondsPerBeat(bpm: int): (r: Option<real>)
    ensures r.Some? <==> bpm != 0
    ensures r.Some? ==> r.value * bpm as real == SecondsPerMinute
    ensures r.Some? ==> (r.value > 0.0 <==> bpm > 0)
  {
    if bpm == 0 then None else Some(SecondsPerMinute / bpm as real)
  }

  class Conductor {
    /**
      The song the conductor was made for, by name. The source builds a
      `Song` from the name alone, which does not match that class's
      constructor; the model keeps the name.
     */
    const songName: string
    var bpm: int
    var secPerBeat: Option<real>
    var songPosition: Option<real>
    var lastBeat: Option<int>

    /** A new conductor has tempo 0 and no beat length, position or last beat yet. */
    constructor (songName: string)
      ensures this.songName == songName
      ensures bpm == 0 && secPerBeat == None && songPosition == None && lastBeat == None
    {
      this.songName := songName;
      bpm := 0;
      secPerBeat := None;
      songPosition := None;
      lastBeat := None;
    }

    /**
      `start`: with a non-zero tempo, the beat length becomes `60 / bpm` and
      the last beat 0. With tempo 0 the division fails and nothing changes;
      a new conductor is in that state. The new state depends on the tempo
      alone, which `start` does not change, so starting twice is starting once.
     */
    method Start() returns (ok: bool)
      modifies this`secPerBeat, this`lastBeat
      ensures ok <==> bpm != 0
      ensures ok ==> secPerBeat == SecondsPerBeat(bpm) && secPerBeat.value * bpm as real == 60.0 && lastBeat == Some(0)
      ensures !ok ==> secPerBeat == old(secPerBeat) && lastBeat == old(lastBeat)
    {
      if bpm == 0 {
        return false;
      }
      secPerBeat := SecondsPerBeat(bpm);
      lastBeat := Some(0);
      ok := true;
    }
  }
}
