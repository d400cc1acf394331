# Rhythm game core, modelled in Dafny

A model of the game logic of a small rhythm game built on a 2D sprite
library. It covers:

- the overlap test between two sprites' corner boxes;
- the player: score counters with derived health and accuracy, key-driven
  direction control with the list of held keys, the walking animation, and
  the per-frame gravity step with the floor-contact clamp;
- the falling note: its inert/visible state, its motion, and its reset and
  sound request on reaching a player;
- the song: flattening a decoded chart (an ordered map from beat keys to
  lists of note identifiers) into notes, and starting all of them;
- the conductor's tempo and beat length;
- the beat visualizer: triggers that slide at two units per beat, follow
  the conductor's tempo, and are sent back when two of them meet.

Positions, speeds and times are exact `real`s. A Euclidean comparison
`(a - b).length <= r` is modelled exactly as `r >= 0 && |a - b|^2 <= r^2`.
The library's vectors and sprite corners are plain values (`Geometry.Vec`,
`Geometry.Box`). Scene queries become sequence parameters: player positions,
floor boxes, trigger objects and conductor readings. Sound requests are
returned as counts, and scene additions are recorded in a `Scene` object.
Where the code fails outright on its evident intent, the model follows the
intent, says so in a comment, and the first two cases are shown under
"Findings":

- the chart loader calls the note constructor with two arguments;
- the trigger reads the beat length under a misspelt attribute name;
- `play` sets the volume through an attribute notes do not have;
- the conductor builds a `Song` from a name alone.

Files: `wrappers.dfy` (Option, Result), `geometry.dfy`, `collision.dfy`,
`player.dfy`, `note.dfy`, `song.dfy`, `conductor.dfy`, `beatvisualizer.dfy`.

## Model

| member | source | states |
|---|---|---|
| Collision.InRange | models/__init__.py:1-2 | a value in range implies the range is non-empty (low <= high) |
| Collision.IsColliding | models/__init__.py:5-36 | the two flag loops return exactly the collision relation `Colliding` |
| Collision.Colliding | models/__init__.py:16-36 | the collision relation: a corner x of the first box in the second's min/max-normalised x-range and a corner y in its y-range; its meaning is given by `CollidingCases` and the lemmas after it |
| Collision.CollidingCases | models/__init__.py:28-36 | colliding iff one of the first box's two x-corners lies in the second's normalised x-range AND one of its two y-corners in the y-range |
| Collision.SecondCornerOrderIrrelevant | models/__init__.py:22-26 | listing the second box's corners in either order, on either axis, does not change the result |
| Collision.FirstCornerOrderIrrelevant | models/__init__.py:30-35 | visiting the first box's corners in the other order does not change the result |
| Collision.CollidesWithItself | models/__init__.py:16-36 | every box collides with itself |
| Collision.ContainingBoxDoesNotCollide | models/__init__.py:30-35 | a first box strictly containing the second does not collide with it, while the reverse test does: the relation is not symmetric |
| Collision.CollidingMeansExtentsMeet | models/__init__.py:25-36 | a reported collision implies the two closed extents intersect on both axes |
| Players.Steer | models/player.py:236-275 | the direction after one key event: each component moves by at most one unit, x only for LEFT/RIGHT and y only for UP/DOWN/jump; the lemmas below give the exact effect and the press/release inverses |
| Players.ReleaseUndoesPress | models/player.py:236-263 | for every key but an enabled jump, pressing then releasing restores the direction exactly |
| Players.PressUndoesRelease | models/player.py:236-263 | for every key but an enabled jump, releasing then pressing restores the direction exactly |
| Players.PressEffect | models/player.py:238-263 | LEFT/RIGHT add (-1,0)/(1,0) when horizontal movement is on, UP/DOWN add (0,1)/(0,-1) when vertical movement is on, otherwise nothing |
| Players.JumpOnlyOnPress | models/player.py:264-275 | a jump press adds (0,1) only with jumping on and several jumps allowed or a floor touched; a jump release never changes anything |
| Players.InertKeysChangeNothing | models/player.py:236-275 | keys with no enabled role leave the direction unchanged |
| Players.IndexOf | models/player.py:304 | the position of the first occurrence of a held key |
| Players.RemoveFirst | models/player.py:304 | `list.remove` drops one occurrence: length minus one, multiset minus the key, keys before the first occurrence in place, keys after it shifted down |
| Players.PressReleaseKeepsHeldKeys | models/player.py:292-305 | pressing and releasing a key leaves the same multiset of held keys, and the same list when the key was not already held |
| Players.Player.constructor | models/player.py:62-111 | missing position/direction become (0,0); speed 5; no held keys; standing; hits = misses = 0; the given maximum health |
| Players.Player.Health | models/player.py:125-127 | health plus misses equals the maximum; it equals the maximum exactly when there are no misses |
| Players.Player.Accuracy | models/player.py:129-135 | accuracy lies in [0,1]; it is 1 when nothing was judged and hits/(hits+misses) otherwise; it is 1 exactly when there are no misses, and 0 exactly when there are misses and no hits |
| Players.Player.Reset | models/player.py:137-140 | hits and misses become 0 and the maximum health 10, whatever it was; health is then 10 and accuracy 1, so a second reset changes nothing |
| Players.Player.TouchingFloor | models/player.py:270-273 | the floor loop reports whether some floor collides with the player's box |
| Players.Player.ControlMovement | models/player.py:236-275 | the direction becomes `Steer` of the old one; a jump press that must look for a floor fails without a scene and changes nothing |
| Players.Player.OnKeyPressed | models/player.py:292-296 | the key is appended to the held keys and the direction is steered as a press |
| Players.Player.OnKeyReleased | models/player.py:302-305 | releasing a held key removes its first occurrence and steers as a release; releasing a key not held fails and changes nothing |
| Players.Player.HandleAnimation | models/player.py:211-219 | afterwards the player walks left when the x-direction is negative, right when positive, and stands when zero, whatever it showed before |
| Players.Player.OnUpdate | models/player.py:171-189 | gravity lowers the vertical direction by 1.8·dt; a floor contact with non-positive vertical direction zeroes it and keeps x; the position moves by direction·speed·dt; the animation follows |
| Players.FloorClampKeepsHorizontal | models/player.py:171-176 | the clamp keeps the horizontal component, leaves no downward motion on a floor, and off a floor only gravity acts |
| Notes.SoundPath | models/note.py:29 | a note's sound is `/assets/piano-<id>.wav`: that prefix, then exactly the id, then that suffix |
| Notes.ContactSounds | models/note.py:42-46 | the sound requests of one frame's player scan, continuing from (0,0) after a contact; characterised by the three lemmas below |
| Notes.NoSoundIffOutOfReach | models/note.py:42-45 | a visible note requests no sound exactly when no player is within `size` of it |
| Notes.SoundsAtMostPlayers | models/note.py:42-45 | at most one sound request per player in one frame |
| Notes.SingleContactSingleSound | models/note.py:42-45 | one player in reach and none near the origin gives exactly one sound request |
| Notes.Note.constructor | models/note.py:22-33 | a new note is invisible, at (0,0), heading (0,-1), with speed 0 |
| Notes.Note.Reset | models/note.py:48-52 | reset leaves the note invisible, at (0,0), with speed 0; a second reset changes nothing |
| Notes.Note.Start | models/note.py:54-67 | after start(p, s) the note is visible, at p, with speed s |
| Notes.Note.OnKeyPressed | models/note.py:80-82 | a key press starts an invisible note at (5,5) with speed 1 and leaves a visible note untouched |
| Notes.Note.OnUpdate | models/note.py:35-46 | an invisible note changes nothing; a visible note out of reach moves by direction·speed·dt; one in reach ends the frame reset and requests `ContactSounds` sounds |
| Notes.FallStep | models/note.py:32-46 | moving along (0,-1) keeps x and lowers y by speed·dt |
| Songs.Flatten | models/song.py:76-79 | the chart flattened in map order then list order; characterised by the four lemmas below |
| Songs.FlattenAppend | models/song.py:77-79 | flattening distributes over concatenation of charts, and so does the note count |
| Songs.FlattenLength | models/song.py:76-79 | the tile count is the sum of the list lengths |
| Songs.FlattenAt | models/song.py:77-79 | the j-th note of the i-th beat sits right after the notes of the earlier beats and carries its beat key: map order, then list order |
| Songs.FlattenListed | models/song.py:77-79 | every tile is a listed identifier under its own beat key |
| Songs.LoadAsWritten | models/song.py:74-80 | as written, loading succeeds exactly when `"song"` and `"tiles"` are present and no note is listed, and then yields no tiles |
| Songs.LoadAsWrittenRejectsEveryNote | models/song.py:79 | as written every chart listing a note raises, while the intended flattening yields tiles |
| Songs.Scene.constructor | models/song.py:86 | a scene starts with nothing added |
| Songs.Scene.Add | models/song.py:86 | adding records the note after the earlier additions |
| Songs.Song.constructor | models/song.py:34-39 | a missing tile list becomes empty; name, scene and spread flag are kept |
| Songs.Song.ArrangeTiles | models/song.py:41-54 | arranging changes nothing |
| Songs.Song.Load | models/song.py:57-80 | fails with `MissingSong` without `"song"` and with `MissingTiles` without `"tiles"`; otherwise the song has the chart's name and one new inert note per identifier, in the order `Flatten` gives; the notes are distinct objects, head (0, -1), play `SoundPath` of their id and have no volume set |
| Songs.Song.Play | models/song.py:82-89 | every tile is added to the scene in order and is then visible, at its old position, with speed 1 and the given volume; the tiles' other fields (direction, identifier) are untouched |
| Conductors.SecondsPerBeat | models/conductor.py:26 | defined exactly when bpm is not 0, and then beat length × bpm = 60, positive exactly for a positive tempo |
| Conductors.Conductor.constructor | models/conductor.py:16-23 | a new conductor has bpm 0 and no beat length, song position or last beat |
| Conductors.Conductor.Start | models/conductor.py:25-27 | fails on bpm 0 (a new conductor's) and changes nothing; otherwise beat length × bpm = 60 and the last beat is 0, so repeating it changes nothing further |
| BeatVisualizers.TriggerSpeed | models/beatvisualizer.py:150 | defined exactly when bpm is not 0, and then speed × 30 = bpm: two units per beat |
| BeatVisualizers.OrOne | models/beatvisualizer.py:138-139 | a missing or zero size becomes exactly 1; any other size is kept |
| BeatVisualizers.FollowConductors | models/beatvisualizer.py:156-160 | the intended tempo loop: the final tempo and whether it completed; characterised by the three lemmas after the as-written pair |
| BeatVisualizers.FollowConductorsAsWritten | models/beatvisualizer.py:158-160 | as written the tempo loop never completes with a changed tempo |
| BeatVisualizers.TempoChangeAsWrittenFails | models/beatvisualizer.py:160 | a 120-bpm conductor makes the as-written frame fail, while the intended loop yields speed 4 |
| BeatVisualizers.FollowingStartedKeepsTwoUnitsPerBeat | models/beatvisualizer.py:150-160 | following started conductors always completes and keeps speed × 30 = bpm |
| BeatVisualizers.FollowingEndsOnLastTempo | models/beatvisualizer.py:156-160 | after a completed loop the trigger has the last conductor's tempo |
| BeatVisualizers.SameTempoChangesNothing | models/beatvisualizer.py:156-158 | conductors at the trigger's own tempo change nothing |
| BeatVisualizers.Meet | models/beatvisualizer.py:164-167 | one flag per scene trigger, and the updating trigger itself is never reset through the check |
| BeatVisualizers.MeetMovesHomeIffSomeReset | models/beatvisualizer.py:164-167 | the updating trigger ends at its start position when some other trigger was reset, and stays put otherwise |
| BeatVisualizers.MeetQuietWhenAlone | models/beatvisualizer.py:164-167 | with no other trigger within `width`, nothing is reset and the trigger stays put |
| BeatVisualizers.MeetFirstContactResetsBoth | models/beatvisualizer.py:164-167 | the first other trigger within `width` is reset, and so is the updating trigger |
| BeatVisualizers.MeetResetsOnlyNear | models/beatvisualizer.py:164-167 | a reset trigger was within `width` of the updating trigger's position or of its start position |
| BeatVisualizers.BeatTrigger.constructor | models/beatvisualizer.py:125-153 | sizes default to 1; start position is (-10·direction.x, initial y); speed × 30 = bpm; paused |
| BeatVisualizers.BeatTrigger.Reset | models/beatvisualizer.py:172-173 | the position becomes the start position; a second reset changes nothing |
| BeatVisualizers.BeatTrigger.OnStartVis | models/beatvisualizer.py:169-170 | the trigger is unpaused |
| BeatVisualizers.BeatTrigger.FollowTempo | models/beatvisualizer.py:156-160 | the tempo and speed become `FollowConductors` of the old ones |
| BeatVisualizers.BeatTrigger.Advance | models/beatvisualizer.py:161-163 | a paused trigger stays; otherwise it moves by direction·speed·dt |
| BeatVisualizers.BeatTrigger.MeetOthers | models/beatvisualizer.py:164-167 | positions of this and every other trigger become what `Meet` says; tempo and pause state of all are unchanged |
| BeatVisualizers.BeatTrigger.OnUpdate | models/beatvisualizer.py:155-167 | tempo, then movement unless paused, then meeting; a failed tempo step moves nothing |
| BeatVisualizers.BeatVisualizer.constructor | models/beatvisualizer.py:30-80 | five fresh left triggers at x = cx-10+2i heading (1,0) and five right at x = cx+10-2i heading (-1,0), size 0.25×0.5, paused, at the tempo; their start positions are x = -10 and x = 10 whatever cx is |

## Left out

- Rendering, images, animations, labels, layers and `BeatVisualizer.setup`: presentation only.
- Camera logic of the player (`camera`, `_check_wall_boundaries`, `_adjust_camera`, `_control_camera_movement`, `on_key_held`) and the label rebuild in `Player.on_update`: they need the library's camera and renderer.
- The JSON file read in `Song.load`: the model starts from the decoded chart.
- A chart whose per-beat value is not a list (a string would be iterated character by character): chart values are lists of identifiers.
- Audio (`models/music.py`), the FPS counter, the end scene, floors, tiles, the background and the launcher: foreign I/O or scene setup.
- The beat zone's key handler and song column arrangement: the source leaves them empty, so there is no lane assignment, spawn height, judgment window or miss detection to model.
- `Conductor.play`: it calls `Song.play` with a keyword that method does not take.
- Conductors.Conductor.constructor: keeps the song's name instead of a `Song`, because the source's call does not match the `Song` constructor.
- BeatVisualizers.BeatTrigger.constructor: requires a non-zero bpm. With bpm 0 the source raises `ZeroDivisionError` while constructing; `TriggerSpeed` models that failure.
- BeatVisualizers.BeatVisualizer.constructor: requires a non-zero bpm, for the same reason.
- Players.Player.Bounds assumes the library's default sprite size 1, centred on the position.
- Notes.Note.OnUpdate takes the note's sprite size as a parameter, because the library sets it.
- Floating-point rounding: the gravity step, the frame motion, the beat length (`SecondsPerBeat`, `Conductor.Start`: beat length × bpm = 60), the trigger speed (`TriggerSpeed`, the trigger layout: speed × 30 = bpm) and `Player.Accuracy`'s division are exact real arithmetic; in binary64 these identities can be off by a rounding error (60/11·11 is not exactly 60).

## Findings

| source | as written | input that shows it | evidently intended | confidence | as-written member | corrected member |
|---|---|---|---|---|---|---|
| models/song.py:79 | `Note(note, beat_number)` passes two arguments to a constructor taking one, so loading raises at the first note | the chart `{"0": ["a"], "4": ["b"]}` | one note per identifier carrying its beat key | not executed | Songs.LoadAsWritten | Songs.Song.Load |
| models/beatvisualizer.py:160 | the beat length is read as `sec_per_Beat`, which conductors lack, so the frame raises whenever a conductor's tempo differs from the trigger's | a trigger built for 100 bpm and a conductor started at 120 bpm | speed becomes `2 / sec_per_beat`, i.e. 4 units per second | not executed | BeatVisualizers.FollowConductorsAsWritten | BeatVisualizers.BeatTrigger.FollowTempo |
