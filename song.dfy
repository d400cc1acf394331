/**
  The song of `models/song.py`: loading flattens the decoded chart, an
  ordered map from beat keys to lists of note identifiers, into one list of
  new notes; playing adds every note to the scene and starts it.
 */
module Songs {
  import opened Wrappers
  import opened Geometry
  import opened Notes

  /** One member of the chart's `"tiles"` object: a beat key and its note identifiers, in file order. */
  datatype BeatNotes = BeatNotes(beat: string, noteIds: seq<string>)

  /** The decoded `"song"` object; either member may be absent. */
  datatype SongEntry = SongEntry(name: Option<string>, tiles: Option<seq<BeatNotes>>)

  /** The decoded chart file, reduced to its `"song"` member. */
  datatype ChartFile = ChartFile(song: Option<SongEntry>)

  /** `MissingSong`: the file has no `"song"` key. `MissingTiles`: the song has no `"tiles"` to iterate. */
  datatype LoadError = MissingSong | MissingTiles

  /** A position of the flattened chart: the beat key and the note identifier. */
  datatype Tile = Tile(beat: string, noteId: string)

  /** The tiles of one beat, in list order. */
  function Expand(e: BeatNotes): seq<Tile> {
    seq(|e.noteIds|, j requires 0 <= j < |e.noteIds| => Tile(e.beat, e.noteIds[j]))
  }

  /** The chart flattened: beats in map order, notes in list order within each beat. */
  function Flatten(entries: seq<BeatNotes>): seq<Tile>
    decreases |entries|
  {
    if |entries| == 0 then [] else Expand(entries[0]) + Flatten(entries[1..])
  }

  /** The number of note identifiers listed in the chart. */
  function TotalNotes(entries: seq<BeatNotes>): nat
    decreases |entries|
  {
    if |entries| == 0 then 0 else |entries[0].noteIds| + TotalNotes(entries[1..])
  }

  /** Flattening distributes over concatenation of charts. */
  lemma {:induction false} FlattenAppend(a: seq<BeatNotes>, b: seq<BeatNotes>)
    ensures Flatten(a + b) == Flatten(a) + Flatten(b)
    ensures TotalNotes(a + b) == TotalNotes(a) + TotalNotes(b)
    decreases |a|
  {
    if |a| == 0 {
      assert a + b == b;
    } else {
      assert (a + b)[1..] == a[1..] + b;
      FlattenAppend(a[1..], b);
    }
  }

  /** One tile per listed identifier: the tile count is the sum of the list lengths. */
  lemma {:induction false} FlattenLength(entries: seq<BeatNotes>)
    ensures |Flatten(entries)| == TotalNotes(entries)
    decreases |entries|
  {
    if |entries| > 0 {
      FlattenLength(entries[1..]);
    }
  }

  /**
    The `j`-th note of the `i`-th beat sits right after the notes of the
    earlier beats, and carries its beat key.
   */
  lemma {:induction false} FlattenAt(entries: seq<BeatNotes>, i: nat, j: nat)
    requires i < |entries| && j < |entries[i].noteIds|
    ensures TotalNotes(entries[..i]) + j < |Flatten(entries)|
    ensures Flatten(entries)[TotalNotes(entries[..i]) + j] == Tile(entries[i].beat, entries[i].noteIds[j])
  {
    assert entries == entries[..i] + [entries[i]] + entries[i + 1..];
    FlattenAppend(entries[..i] + [entries[i]], entries[i + 1..]);
    FlattenAppend(entries[..i], [entries[i]]);
    FlattenLength(entries[..i]);
    assert Flatten([entries[i]]) == Expand(entries[i]) + Flatten([]);
  }

  /** Every tile comes from a listed identifier under its own beat key. */
  lemma {:induction false} FlattenListed(entries: seq<BeatNotes>, k: nat)
    requires k < |Flatten(entries)|
    ensures exists i :: 0 <= i < |entries| && entries[i].beat == Flatten(entries)[k].beat
                        && Flatten(entries)[k].noteId in entries[i].noteIds
    decreases |entries|
  {
    var t := Flatten(entries)[k];
    if k < |entries[0].noteIds| {
      assert t == Tile(entries[0].beat, entries[0].noteIds[k]);
    } else {
      FlattenListed(entries[1..], k - |entries[0].noteIds|);
      var i :| 0 <= i < |entries[1..]| && entries[1..][i].beat == t.beat && t.noteId in entries[1..][i].noteIds;
      assert entries[i + 1] == entries[1..][i];
    }
  }

  /**
    `load` exactly as written, on the decoded chart: the note constructor
    is called with two arguments but accepts one, so the first listed note
    raises a `TypeError`; only a chart with no notes at all loads.
   */
  function LoadAsWritten(file: ChartFile): (r: Result<seq<Tile>, string>)
    ensures r.Success? <==>
      file.song.Some? && file.song.value.tiles.Some? && TotalNotes(file.song.value.tiles.value) == 0
    ensures r.Success? ==> r.value == []
  {
    if file.song.None? then Failure("KeyError")
    else if file.song.value.tiles.None? then Failure("AttributeError")
    else if TotalNotes(file.song.value.tiles.value) > 0 then Failure("TypeError")
    else Success([])
  }

  /**
    As written, every chart that lists a note fails to load, where the
    intended flattening yields one tile per note; for example the chart
    `{"0": ["a"], "4": ["b"]}`.
   */
  lemma LoadAsWrittenRejectsEveryNote(name: Option<string>, entries: seq<BeatNotes>)
    requires TotalNotes(entries) > 0
    ensures LoadAsWritten(ChartFile(Some(SongEntry(name, Some(entries))))) == Failure("TypeError")
    ensures |Flatten(entries)| > 0
    ensures Flatten([BeatNotes("0", ["a"]), BeatNotes("4", ["b"])]) == [Tile("0", "a"), Tile("4", "b")]
  {
    FlattenLength(entries);
    var two := [BeatNotes("0", ["a"]), BeatNotes("4", ["b"])];
    assert Flatten(two[1..]) == Expand(two[1]) + Flatten([]);
  }

  /** The (beat, identifier) pairs a list of notes carries. */
  function TilesOf(notes: seq<Note>): seq<Tile> {
    seq(|notes|, k requires 0 <= k < |notes| => Tile(notes[k].beat, notes[k].noteId))
  }

  /** The volume `play` sets when none is given. */
  const DefaultVolume: real := 0.1

  /** The entities added to a scene, in order of addition. */
  class Scene {
    var added: seq<Note>

    constructor ()
      ensures added == []
    {
      added := [];
    }

    method Add(n: Note)
      modifies this
      ensures added == old(added) + [n]
    {
      added := added + [n];
    }
  }

  class Song {
    /** The chart's `"name"` field, absent when the chart has none. */
    const name: Option<string>
    var tiles: seq<Note>
    const spread: bool
    const scene: Scene

    /** A missing tile list becomes empty; arranging the tiles then changes nothing. */
    constructor (name: Option<string>, tiles: Option<seq<Note>>, scene: Scene, spread: bool)
      ensures this.name == name && this.scene == scene && this.spread == spread
      ensures this.tiles == (if tiles.Some? then tiles.value else [])
    {
      this.name := name;
      this.tiles := if tiles.Some? then tiles.value else [];
      this.spread := spread;
      this.scene := scene;
      new;
      ArrangeTiles();
    }

    /** Column arrangement is not implemented: nothing is changed. */
    method ArrangeTiles()
      ensures unchanged(this) && unchanged(tiles)
    {
    }

    /**
      `load` on the decoded chart: one new, inert note per listed identifier,
      beats in map order and identifiers in list order, each carrying its
      beat key. A chart without `"song"` or without `"tiles"` fails.
     */
    static method Load(file: ChartFile, scene: Scene, spread: bool) returns (r: Result<Song, LoadError>)
      ensures r.Failure? <==> file.song.None? || file.song.value.tiles.None?
      ensures file.song.None? ==> r == Failure(MissingSong)
      ensures file.song.Some? && file.song.value.tiles.None? ==> r == Failure(MissingTiles)
      ensures r.Success? ==>
        && fresh(r.value)
        && r.value.name == file.song.value.name
        && r.value.scene == scene && r.value.spread == spread
        && TilesOf(r.value.tiles) == Flatten(file.song.value.tiles.value)
        && (forall t :: t in r.value.tiles ==> fresh(t) && !t.visible && t.position == Origin && t.speed == 0.0)
        && (forall t :: t in r.value.tiles ==> t.direction == FallDirection && t.volume == None)
        && (forall t :: t in r.value.tiles ==> t.soundPath == SoundPath(t.noteId))
        && (forall i, j :: 0 <= i < j < |r.value.tiles| ==> r.value.tiles[i] != r.value.tiles[j])
    {
      if file.song.None? {
        return Failure(MissingSong);
      }
      var song := file.song.value;
      if song.tiles.None? {
        return Failure(MissingTiles);
      }
      var entries := song.tiles.value;
      var tiles: seq<Note> := [];
      for i := 0 to |entries|
        invariant TilesOf(tiles) == Flatten(entries[..i])
        invariant forall t :: t in tiles ==> fresh(t) && !t.visible && t.position == Origin && t.speed == 0.0
        invariant forall t :: t in tiles ==> t.direction == FallDirection && t.volume == None
        invariant forall t :: t in tiles ==> t.soundPath == SoundPath(t.noteId)
        invariant forall a, b :: 0 <= a < b < |tiles| ==> tiles[a] != tiles[b]
      {
        ghost var before := tiles;
        var e := entries[i];
        for j := 0 to |e.noteIds|
          invariant |tiles| == |before| + j
          invariant tiles[..|before|] == before
          invariant TilesOf(tiles) == Flatten(entries[..i]) + Expand(e)[..j]
          invariant forall t :: t in tiles ==> fresh(t) && !t.visible && t.position == Origin && t.speed == 0.0
          invariant forall t :: t in tiles ==> t.direction == FallDirection && t.volume == None
          invariant forall t :: t in tiles ==> t.soundPath == SoundPath(t.noteId)
          invariant forall a, b :: 0 <= a < b < |tiles| ==> tiles[a] != tiles[b]
        {
          var n := new Note(e.noteIds[j], e.beat);
          assert TilesOf(tiles + [n]) == TilesOf(tiles) + [Tile(e.beat, e.noteIds[j])];
          assert Expand(e)[..j + 1] == Expand(e)[..j] + [Tile(e.beat, e.noteIds[j])];
          tiles := tiles + [n];
        }
        assert entries[..i + 1] == entries[..i] + [e];
        FlattenAppend(entries[..i], [e]);
        assert Flatten([e]) == Expand(e) + Flatten([]);
      }
      assert entries[..|entries|] == entries;
      var s := new Song(song.name, Some(tiles), scene, spread);
      r := Success(s);
    }

    /**
      `play`: every tile is added to the scene and started at its current
      position with speed 1, and its sound's volume is set. The source
      writes the volume through an attribute the notes do not have; this
      model sets the note's own sound volume, as intended.
     */
    method Play(volume: real := DefaultVolume)
      modifies scene, tiles`visible, tiles`position, tiles`speed, tiles`volume
      ensures scene.added == old(scene.added) + tiles
      ensures forall t :: t in tiles ==>
        t.visible && t.position == old(t.position) && t.speed == 1.0 && t.volume == Some(volume)
    {
      for i := 0 to |tiles|
        invariant scene.added == old(scene.added) + tiles[..i]
        invariant forall t :: t in tiles ==> t.position == old(t.position)
        invariant forall k :: 0 <= k < i ==>
          tiles[k].visible && tiles[k].speed == 1.0 && tiles[k].volume == Some(volume)
      {
        var tile := tiles[i];
        scene.Add(tile);
        tile.Start(tile.position, 1.0);
        tile.volume := Some(volume);
      }
    }
  }
}
