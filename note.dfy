/**
  The falling note of `models/note.py`: an inert/visible sprite that moves
  by `direction * speed * dt` each frame and, on reaching a player, resets
  itself and requests its sound.
 */
module Notes {
  import opened Wrappers
  import opened Geometry

  const FallDirection := Vec(0.0, -1.0)
  /** Where a key press places a note that is not yet visible, and how fast it then falls. */
  const KeyStartPosition := Vec(5.0, 5.0)
  const KeyStartSpeed: real := 1.0

  /** The sound clip a note of the given identifier plays. */
  function SoundPath(noteId: string): (path: string)
    ensures |path| == |"/assets/piano-"| + |noteId| + |".wav"|
    ensures path[..|"/assets/piano-"|] == "/assets/piano-"
    ensures path[|path| - |".wav"|..] == ".wav"
    ensures path[|"/assets/piano-"|..|path| - |".wav"|] == noteId
  {
    "/assets/piano-" + noteId + ".wav"
  }

  /**
    The number of sound requests a visible note at `p` makes while it scans
    the players in order: each player within `size` of the note's current
    position resets the note to (0, 0) and requests the sound once, so after
    the first contact the remaining players are compared with the origin.
   */
  function ContactSounds(p: Vec, players: seq<Vec>, size: real): nat
    decreases |players|
  {
    if |players| == 0 then 0
    else if WithinReach(players[0], p, size) then 1 + ContactSounds(Origin, players[1..], size)
    else ContactSounds(p, players[1..], size)
  }

  /** A note requests no sound exactly when no player is within reach of where it stands. */
  lemma {:induction false} NoSoundIffOutOfReach(p: Vec, players: seq<Vec>, size: real)
    ensures ContactSounds(p, players, size) == 0 <==>
      forall i :: 0 <= i < |players| ==> !WithinReach(players[i], p, size)
    decreases |players|
  {
    if |players| > 0 {
      NoSoundIffOutOfReach(p, players[1..], size);
      assert forall i :: 1 <= i < |players| ==> players[i] == players[1..][i - 1];
    }
  }

  /** At most one sound request per player. */
  lemma {:induction false} SoundsAtMostPlayers(p: Vec, players: seq<Vec>, size: real)
    ensures ContactSounds(p, players, size) <= |players|
    decreases |players|
  {
    if |players| > 0 {
      SoundsAtMostPlayers(Origin, players[1..], size);
      SoundsAtMostPlayers(p, players[1..], size);
    }
  }

  /**
    A note requests exactly one sound when exactly one player reaches it and
    no player stands within reach of the origin, where the reset puts it.
   */
  lemma {:induction false} SingleContactSingleSound(p: Vec, players: seq<Vec>, size: real, k: nat)
    requires k < |players| && WithinReach(players[k], p, size)
    requires forall i :: 0 <= i < |players| && i != k ==> !WithinReach(players[i], p, size)
    requires forall i :: 0 <= i < |players| ==> !WithinReach(players[i], Origin, size)
    ensures ContactSounds(p, players, size) == 1
    decreases |players|
  {
    var rest := players[1..];
    assert forall i :: 0 <= i < |rest| ==> rest[i] == players[i + 1];
    if k == 0 {
      NoSoundIffOutOfReach(Origin, rest, size);
    } else {
      SingleContactSingleSound(p, rest, size, k - 1);
    }
  }

  class Note {
    /** The chart identifier, which also names the sound. */
    const noteId: string
    /** The chart key of the beat the note belongs to. */
    const beat: string
    const soundPath: string
    /** Whether the sprite has its image, i.e. is drawn and active. */
    var visible: bool
    var position: Vec
    var direction: Vec
    var speed: real
    /** The volume set on the note's sound; `None` until a song sets it. */
    var volume: Option<real>

    /**
      A new note: invisible, at (0, 0), heading down, not moving.
      The chart loader passes the beat key as a second argument, which the
      source constructor does not accept; this model takes it, as intended.
     */
    constructor (noteId: string, beat: string)
      ensures this.noteId == noteId && this.beat == beat && soundPath == SoundPath(noteId)
      ensures !visible && position == Origin && direction == FallDirection && speed == 0.0
      ensures volume == None
    {
      this.noteId := noteId;
      this.beat := beat;
      soundPath := SoundPath(noteId);
      visible := false;
      position := Origin;
      direction := FallDirection;
      speed := 0.0;
      volume := None;
    }

    /** Back to the inert state: invisible, at (0, 0), not moving. */
    method Reset()
      modifies this`visible, this`position, this`speed
      ensures !visible && position == Origin && speed == 0.0
    {
      visible := false;
      position := Origin;
      speed := 0.0;
    }

    /** Shows the note at `p`, moving at speed `s`. */
    method Start(p: Vec, s: real)
      modifies this`visible, this`position, this`speed
      ensures visible && position == p && speed == s
    {
      visible := true;
      position := p;
      speed := s;
    }

    /** Any key press starts an inert note at (5, 5) with speed 1; a visible note ignores it. */
    method OnKeyPressed()
      modifies this`visible, this`position, this`speed
      ensures old(visible) ==> visible && position == old(position) && speed == old(speed)
      ensures !old(visible) ==> visible && position == KeyStartPosition && speed == KeyStartSpeed
    {
      if !visible {
        Start(KeyStartPosition, KeyStartSpeed);
      }
    }

    /**
      One frame. An invisible note does nothing. A visible note compares its
      position with every player's in turn (Euclidean distance at most
      `size`); each contact resets it and requests its sound. It then moves
      by `direction * speed * dt`, which after a reset is no move at all.
      The result is the number of sound requests.
     */
    method OnUpdate(dt: real, players: seq<Vec>, size: real) returns (sounds: nat)
      modifies this`visible, this`position, this`speed
      ensures !old(visible) ==> sounds == 0 && !visible && position == old(position) && speed == old(speed)
      ensures old(visible) ==> sounds == ContactSounds(old(position), players, size)
      ensures old(visible) && sounds == 0 ==>
        visible && speed == old(speed) && position == old(position).Plus(direction.Times(speed).Times(dt))
      ensures old(visible) && sounds > 0 ==> !visible && position == Origin && speed == 0.0
    {
      sounds := 0;
      if !visible {
        return;
      }
      ghost var start := position;
      for i := 0 to |players|
        invariant sounds + ContactSounds(position, players[i..], size) == ContactSounds(start, players, size)
        invariant sounds == 0 ==> visible && position == start && speed == old(speed)
        invariant sounds > 0 ==> !visible && position == Origin && speed == 0.0
      {
        assert players[i..][0] == players[i];
        assert players[i..][1..] == players[i + 1..];
        if WithinReach(players[i], position, size) {
          Reset();
          // `play`: one PlaySound request for this note's sound.
          sounds := sounds + 1;
        }
      }
      ghost var before := position;
      position := position.Plus(direction.Times(speed).Times(dt));
      assert sounds > 0 ==> speed == 0.0 && position == before;
    }
  }

  /** A visible note out of every player's reach falls straight down by `speed * dt`. */
  lemma FallStep(p: Vec, speed: real, dt: real)
    ensures p.Plus(FallDirection.Times(speed).Times(dt)) == Vec(p.x, p.y - speed * dt)
  {
    assert FallDirection.Times(speed) == Vec(0.0, -speed);
    assert Vec(0.0, -speed).Times(dt) == Vec(0.0, -speed * dt);
  }
}
