/**
  The beat visualizer of `models/beatvisualizer.py`: five triggers on each
  side of a target slide towards it at two world units per beat; two
  triggers that meet are both sent back to their start positions.
 */
module BeatVisualizers {
  import opened Wrappers
  import opened Geometry

  /** How far out, on the side opposite its direction, a trigger restarts. */
  const StartDistance: real := 10.0
  const TriggerCount: nat := 5
  const TriggerSpacing: real := 2.0
  const TriggerWidth: real := 0.25
  const TriggerHeight: real := 0.5
  const DefaultBpm: int := 100
  /** The tempo a trigger is built for when none is given. */
  const TriggerDefaultBpm: int := 150

  /** `2 / (60 / bpm)`: two world units per beat, i.e. `bpm / 30` units per second. */
  function TriggerSpeed(bpm: int): (r: Option<real>)
    ensures r.Some? <==> bpm != 0
    ensures r.Some? ==> r.value * 30.0 == bpm as real
  {
    if bpm == 0 then None else Some(2.0 / (60.0 / bpm as real))
  }

  /** `value or 1`: an absent or zero size falls back to 1. */
  function OrOne(size: Option<real>): (r: real)
    ensures size.None? || size.value == 0.0 ==> r == 1.0
    ensures size.Some? && size.value != 0.0 ==> r == size.value
  {
    if size.None? || size.value == 0.0 then 1.0 else size.value
  }

  /** What a trigger reads from a conductor in the scene: its tempo and, once started, its beat length. */
  datatype ConductorReading = ConductorReading(bpm: int, secPerBeat: Option<real>)

  /** A trigger's tempo and the speed derived from it. */
  datatype Tempo = Tempo(bpm: int, speed: real)

  /**
    The tempo loop of `on_update`: for each conductor whose tempo differs,
    adopt its tempo and set the speed to `2 / sec_per_beat`. A conductor
    without a beat length (not started) or with a zero one stops the loop
    with an error after the tempo was already adopted. The result is the
    final tempo and whether the loop completed.
   */
  function FollowConductors(t: Tempo, cs: seq<ConductorReading>): (Tempo, bool)
    decreases |cs|
  {
    if |cs| == 0 then (t, true)
    else if cs[0].bpm == t.bpm then FollowConductors(t, cs[1..])
    else if cs[0].secPerBeat.None? || cs[0].secPerBeat.value == 0.0 then (Tempo(cs[0].bpm, t.speed), false)
    else FollowConductors(Tempo(cs[0].bpm, 2.0 / cs[0].secPerBeat.value), cs[1..])
  }

  /**
    The tempo loop exactly as written: the beat length is read under the
    misspelt name `sec_per_Beat`, which no conductor has, so the first
    conductor whose tempo differs raises after its tempo was adopted.
   */
  function FollowConductorsAsWritten(t: Tempo, cs: seq<ConductorReading>): (r: (Tempo, bool))
    ensures r.1 ==> r.0 == t
    decreases |cs|
  {
    if |cs| == 0 then (t, true)
    else if cs[0].bpm == t.bpm then FollowConductorsAsWritten(t, cs[1..])
    else (Tempo(cs[0].bpm, t.speed), false)
  }

  /**
    A started conductor at 120 bpm and a trigger built for 100 bpm: as
    written the frame fails and the trigger keeps its 100-bpm speed; as
    intended it speeds up to 4 units per second, two units per beat.
   */
  lemma TempoChangeAsWrittenFails()
    ensures FollowConductorsAsWritten(Tempo(100, 10.0 / 3.0), [ConductorReading(120, Some(0.5))]) == (Tempo(120, 10.0 / 3.0), false)
    ensures FollowConductors(Tempo(100, 10.0 / 3.0), [ConductorReading(120, Some(0.5))]) == (Tempo(120, 4.0), true)
  {
    var cs := [ConductorReading(120, Some(0.5))];
    assert cs[1..] == [];
  }

  /** A conductor that was started at its current tempo. */
  predicate Started(c: ConductorReading) {
    c.bpm != 0 && c.secPerBeat == Some(60.0 / c.bpm as real)
  }

  /**
    Following started conductors always completes and keeps the trigger at
    two units per beat of the tempo it ends with.
   */
  lemma {:induction false} FollowingStartedKeepsTwoUnitsPerBeat(t: Tempo, cs: seq<ConductorReading>)
    requires t.speed * 30.0 == t.bpm as real
    requires forall i :: 0 <= i < |cs| ==> Started(cs[i])
    ensures FollowConductors(t, cs).1
    ensures FollowConductors(t, cs).0.speed * 30.0 == FollowConductors(t, cs).0.bpm as real
    decreases |cs|
  {
    if |cs| > 0 {
      var next := if cs[0].bpm == t.bpm then t else Tempo(cs[0].bpm, 2.0 / cs[0].secPerBeat.value);
      if cs[0].bpm != t.bpm {
        var b := cs[0].bpm as real;
        assert b != 0.0;
        assert 2.0 / (60.0 / b) == b / 30.0;
      }
      FollowingStartedKeepsTwoUnitsPerBeat(next, cs[1..]);
    }
  }

  /** After a completed loop the trigger has the tempo of the last conductor in the scene. */
  lemma {:induction false} FollowingEndsOnLastTempo(t: Tempo, cs: seq<ConductorReading>)
    requires |cs| > 0 && FollowConductors(t, cs).1
    ensures FollowConductors(t, cs).0.bpm == cs[|cs| - 1].bpm
    decreases |cs|
  {
    if |cs| > 1 {
      var next := if cs[0].bpm == t.bpm then t else Tempo(cs[0].bpm, 2.0 / cs[0].secPerBeat.value);
      assert cs[1..][|cs[1..]| - 1] == cs[|cs| - 1];
      FollowingEndsOnLastTempo(next, cs[1..]);
    }
  }

  /** Conductors at the trigger's own tempo change nothing, started or not. */
  lemma {:induction false} SameTempoChangesNothing(t: Tempo, cs: seq<ConductorReading>)
    requires forall i :: 0 <= i < |cs| ==> cs[i].bpm == t.bpm
    ensures FollowConductors(t, cs) == (t, true)
    decreases |cs|
  {
    if |cs| > 0 {
      SameTempoChangesNothing(t, cs[1..]);
    }
  }

  /**
    The meeting loop of `on_update` on values. `others` lists the scene's
    triggers by position, `None` marking the updating trigger itself, which
    is skipped. Each other trigger within `width` of the updating trigger's
    current position is reset, and so is the updating trigger, which from
    then on stands at `home`. The result is the updating trigger's final
    position and, per entry, whether that trigger was reset.
   */
  function Meet(p: Vec, home: Vec, width: real, others: seq<Option<Vec>>): (r: (Vec, seq<bool>))
    ensures |r.1| == |others|
    ensures forall i :: 0 <= i < |others| && r.1[i] ==> others[i].Some?
    decreases |others|
  {
    if |others| == 0 then (p, [])
    else
      var hit := others[0].Some? && WithinReach(others[0].value, p, width);
      var rest := Meet(if hit then home else p, home, width, others[1..]);
      (rest.0, [hit] + rest.1)
  }

  /** The updating trigger ends at home exactly when some other trigger was reset, and otherwise stays put. */
  lemma {:induction false} MeetMovesHomeIffSomeReset(p: Vec, home: Vec, width: real, others: seq<Option<Vec>>)
    ensures var r := Meet(p, home, width, others);
      ((exists i :: 0 <= i < |others| && r.1[i]) ==> r.0 == home)
      && ((forall i :: 0 <= i < |others| ==> !r.1[i]) ==> r.0 == p)
    decreases |others|
  {
    if |others| > 0 {
      var hit := others[0].Some? && WithinReach(others[0].value, p, width);
      var q := if hit then home else p;
      MeetMovesHomeIffSomeReset(q, home, width, others[1..]);
      var r := Meet(p, home, width, others);
      var rest := Meet(q, home, width, others[1..]);
      assert r.0 == rest.0 && r.1 == [hit] + rest.1;
      assert r.1[0] == hit;
      assert forall i :: 1 <= i < |others| ==> r.1[i] == rest.1[i - 1];
      if exists i :: 0 <= i < |others| && r.1[i] {
        var i :| 0 <= i < |others| && r.1[i];
        if i > 0 {
          assert rest.1[i - 1];
        }
      }
      if forall i :: 0 <= i < |others| ==> !r.1[i] {
        assert !hit;
        assert forall i :: 0 <= i < |rest.1| ==> !rest.1[i] by {
          forall i | 0 <= i < |rest.1| ensures !rest.1[i] {
            assert r.1[i + 1] == rest.1[i];
          }
        }
      }
    }
  }

  /** With no other trigger within reach, nothing is reset and the trigger stays put. */
  lemma {:induction false} MeetQuietWhenAlone(p: Vec, home: Vec, width: real, others: seq<Option<Vec>>)
    requires forall i :: 0 <= i < |others| && others[i].Some? ==> !WithinReach(others[i].value, p, width)
    ensures Meet(p, home, width, others).0 == p
    ensures forall i :: 0 <= i < |others| ==> !Meet(p, home, width, others).1[i]
    decreases |others|
  {
    if |others| > 0 {
      assert forall i :: 0 <= i < |others[1..]| ==> others[1..][i] == others[i + 1];
      MeetQuietWhenAlone(p, home, width, others[1..]);
      var rest := Meet(p, home, width, others[1..]);
      assert !(others[0].Some? && WithinReach(others[0].value, p, width));
      assert Meet(p, home, width, others) == (rest.0, [false] + rest.1);
    }
  }

  /** The first other trigger within reach is reset, and the updating trigger with it. */
  lemma {:induction false} MeetFirstContactResetsBoth(p: Vec, home: Vec, width: real, others: seq<Option<Vec>>, k: nat)
    requires k < |others| && others[k].Some? && WithinReach(others[k].value, p, width)
    requires forall i :: 0 <= i < k && others[i].Some? ==> !WithinReach(others[i].value, p, width)
    ensures Meet(p, home, width, others).1[k]
    ensures Meet(p, home, width, others).0 == home
    decreases |others|
  {
    if k > 0 {
      assert forall i :: 0 <= i < k - 1 ==> others[1..][i] == others[i + 1];
      MeetFirstContactResetsBoth(p, home, width, others[1..], k - 1);
    }
    MeetMovesHomeIffSomeReset(p, home, width, others);
  }

  /** A reset trigger was within reach of the updating trigger's first position or of its home. */
  lemma {:induction false} MeetResetsOnlyNear(p: Vec, home: Vec, width: real, others: seq<Option<Vec>>, k: nat)
    requires k < |others| && Meet(p, home, width, others).1[k]
    ensures others[k].Some?
    ensures WithinReach(others[k].value, p, width) || WithinReach(others[k].value, home, width)
    decreases |others|
  {
    if k > 0 {
      var hit := others[0].Some? && WithinReach(others[0].value, p, width);
      var q := if hit then home else p;
      assert Meet(q, home, width, others[1..]).1[k - 1];
      MeetResetsOnlyNear(q, home, width, others[1..], k - 1);
      assert others[1..][k - 1] == others[k];
    }
  }

  /** One step of the meeting loop: entry `i` is flagged as `Meet` says, and the rest continues from there. */
  lemma MeetStep(p: Vec, home: Vec, width: real, others: seq<Option<Vec>>, i: nat, m: (Vec, seq<bool>))
    requires i < |others| && |m.1| == |others|
    requires Meet(p, home, width, others[i..]) == (m.0, m.1[i..])
    ensures var hit := others[i].Some? && WithinReach(others[i].value, p, width);
      && m.1[i] == hit
      && Meet(if hit then home else p, home, width, others[i + 1..]) == (m.0, m.1[i + 1..])
  {
    var hit := others[i].Some? && WithinReach(others[i].value, p, width);
    var rest := Meet(if hit then home else p, home, width, others[i + 1..]);
    assert others[i..][0] == others[i];
    assert others[i..][1..] == others[i + 1..];
    assert Meet(p, home, width, others[i..]) == (rest.0, [hit] + rest.1);
    assert m.1[i..][0] == m.1[i];
    assert m.1[i..][1..] == m.1[i + 1..];
  }

  class BeatTrigger {
    const width: real
    const height: real
    var position: Vec
    const direction: Vec
    /** Ten units out on the side opposite the direction, at the initial height. */
    const startPos: Vec
    var bpm: int
    var speed: real
    var paused: bool

    /** A new trigger: paused, moving at two units per beat of `bpm`. */
    constructor (width: Option<real> := None, height: Option<real> := None, position: Option<Vec> := None,
                 direction: Option<Vec> := None, bpm: int := TriggerDefaultBpm)
      requires bpm != 0
      ensures this.width == OrOne(width) && this.height == OrOne(height)
      ensures this.position == (if position.Some? then position.value else Origin)
      ensures this.direction == (if direction.Some? then direction.value else Origin)
      ensures startPos == Vec(-StartDistance * this.direction.x, this.position.y)
      ensures this.bpm == bpm && speed * 30.0 == bpm as real
      ensures paused
    {
      this.width := OrOne(width);
      this.height := OrOne(height);
      var p := if position.Some? then position.value else Origin;
      var d := if direction.Some? then direction.value else Origin;
      this.position := p;
      this.direction := d;
      startPos := Vec(StartDistance * d.x * -1.0, p.y);
      this.bpm := bpm;
      speed := TriggerSpeed(bpm).value;
      paused := true;
    }

    /** Back to the start position. Resetting twice is resetting once. */
    method Reset()
      modifies this`position
      ensures position == startPos
    {
      position := startPos;
    }

    /** The visualisation started: the trigger may move. */
    method OnStartVis()
      modifies this`paused
      ensures !paused
    {
      paused := false;
    }

    /**
      The tempo loop of `on_update`. The source reads the beat length under a
      misspelt attribute name; this model reads `sec_per_beat`, as intended.
     */
    method FollowTempo(cs: seq<ConductorReading>) returns (ok: bool)
      modifies this`bpm, this`speed
      ensures (Tempo(bpm, speed), ok) == FollowConductors(old(Tempo(bpm, speed)), cs)
    {
      ghost var t0 := Tempo(bpm, speed);
      for i := 0 to |cs|
        invariant FollowConductors(Tempo(bpm, speed), cs[i..]) == FollowConductors(t0, cs)
      {
        assert cs[i..][1..] == cs[i + 1..];
        var c := cs[i];
        if c.bpm != bpm {
          bpm := c.bpm;
          if c.secPerBeat.None? || c.secPerBeat.value == 0.0 {
            return false;
          }
          speed := 2.0 / c.secPerBeat.value;
        }
      }
      ok := true;
    }

    /** The movement step of `on_update`: a paused trigger stays, otherwise it moves by `direction * speed * dt`. */
    method Advance(dt: real)
      modifies this`position
      ensures position == if paused then old(position) else old(position).Plus(direction.Times(speed).Times(dt))
    {
      if !paused {
        position := position.Plus(direction.Times(speed).Times(dt));
      }
    }

    /**
      The meeting loop of `on_update` over the scene's triggers (each listed
      once): every other trigger within `width` of this one is reset together
      with this one, as `Meet` describes; a trigger never meets itself.
     */
    method MeetOthers(triggers: seq<BeatTrigger>)
      requires forall i, j :: 0 <= i < j < |triggers| ==> triggers[i] != triggers[j]
      modifies this`position, triggers`position
      ensures var m := Meet(old(position), startPos, width, old(OthersOf(triggers, this)));
        && position == m.0
        && forall i :: 0 <= i < |triggers| && triggers[i] != this ==>
             triggers[i].position == (if m.1[i] then triggers[i].startPos else old(triggers[i].position))
    {
      ghost var others := OthersOf(triggers, this);
      ghost var m := Meet(position, startPos, width, others);
      for i := 0 to |triggers|
        invariant Meet(position, startPos, width, others[i..]) == (m.0, m.1[i..])
        invariant forall k :: 0 <= k < |triggers| && triggers[k] != this ==>
          triggers[k].position == (if k < i && m.1[k] then triggers[k].startPos else old(triggers[k].position))
      {
        MeetStep(position, startPos, width, others, i, m);
        var t := triggers[i];
        var near := false;
        if t != this {
          near := WithinReach(t.position, position, width);
        }
        if near {
          t.Reset();
          Reset();
        }
      }
      assert others[|triggers|..] == [];
      assert m.1[|triggers|..] == [];
    }

    /**
      `on_update`: follow the conductors' tempo, move unless paused, then
      meet the other triggers. A failed tempo step ends the frame there.
     */
    method OnUpdate(dt: real, cs: seq<ConductorReading>, triggers: seq<BeatTrigger>) returns (ok: bool)
      requires forall i, j :: 0 <= i < j < |triggers| ==> triggers[i] != triggers[j]
      modifies this`bpm, this`speed, this`position, triggers`position
      ensures (Tempo(bpm, speed), ok) == FollowConductors(old(Tempo(bpm, speed)), cs)
      ensures !ok ==> position == old(position) && forall t :: t in triggers && t != this ==> t.position == old(t.position)
      ensures ok ==>
        var moved := if paused then old(position) else old(position).Plus(direction.Times(speed).Times(dt));
        var m := Meet(moved, startPos, width, old(OthersOf(triggers, this)));
        && position == m.0
        && forall i :: 0 <= i < |triggers| && triggers[i] != this ==>
             triggers[i].position == (if m.1[i] then triggers[i].startPos else old(triggers[i].position))
    {
      ok := FollowTempo(cs);
      if !ok {
        return;
      }
      Advance(dt);
      assert OthersOf(triggers, this) == old(OthersOf(triggers, this));
      MeetOthers(triggers);
    }
  }

  /** The scene's triggers by position, with `None` in place of `me`. */
  function OthersOf(triggers: seq<BeatTrigger>, me: BeatTrigger): (others: seq<Option<Vec>>)
    reads triggers
    ensures |others| == |triggers|
    ensures forall i :: 0 <= i < |triggers| ==>
      others[i] == if triggers[i] == me then None else Some(triggers[i].position)
  {
    seq(|triggers|, i requires 0 <= i < |triggers| reads triggers =>
      if triggers[i] == me then None else Some(triggers[i].position))
  }

  /** A trigger as the visualizer lays it out: position, direction, size, tempo, paused. */
  ghost predicate LaidOut(t: BeatTrigger, pos: Vec, dir: Vec, bpm: int)
    reads t
  {
    && t.position == pos && t.direction == dir
    && t.width == TriggerWidth && t.height == TriggerHeight
    && t.bpm == bpm && t.speed * 30.0 == bpm as real && t.paused
    && t.startPos == Vec(-StartDistance * dir.x, pos.y)
  }

  class BeatVisualizer {
    const bpm: int
    /** The middle target's position. */
    const targetPosition: Vec
    const leftTriggers: seq<BeatTrigger>
    const rightTriggers: seq<BeatTrigger>

    /**
      Five triggers on the left at x = cx - 10 + 2i heading right, five on
      the right at x = cx + 10 - 2i heading left, all at the target's height.
      Their restart positions are x = -10 and x = 10 whatever cx is.
     */
    constructor (position: Option<Vec> := None, bpm: int := DefaultBpm)
      requires bpm != 0
      ensures this.bpm == bpm
      ensures targetPosition == (if position.Some? then position.value else Origin)
      ensures |leftTriggers| == TriggerCount && |rightTriggers| == TriggerCount
      ensures forall i :: 0 <= i < TriggerCount ==>
        && LaidOut(leftTriggers[i], Vec(targetPosition.x - StartDistance + i as real * TriggerSpacing, targetPosition.y), Vec(1.0, 0.0), bpm)
        && LaidOut(rightTriggers[i], Vec(targetPosition.x + StartDistance - i as real * TriggerSpacing, targetPosition.y), Vec(-1.0, 0.0), bpm)
        && leftTriggers[i].startPos == Vec(-StartDistance, targetPosition.y)
        && rightTriggers[i].startPos == Vec(StartDistance, targetPosition.y)
      ensures forall t :: t in leftTriggers + rightTriggers ==> fresh(t)
      ensures forall i, j :: 0 <= i < j < |leftTriggers + rightTriggers| ==> (leftTriggers + rightTriggers)[i] != (leftTriggers + rightTriggers)[j]
    {
      var target := if position.Some? then position.value else Origin;
      var left: seq<BeatTrigger> := [];
      var right: seq<BeatTrigger> := [];
      for i := 0 to TriggerCount
        invariant |left| == i && |right| == i
        invariant forall k :: 0 <= k < i ==>
          && LaidOut(left[k], Vec(target.x - StartDistance + k as real * TriggerSpacing, target.y), Vec(1.0, 0.0), bpm)
          && LaidOut(right[k], Vec(target.x + StartDistance - k as real * TriggerSpacing, target.y), Vec(-1.0, 0.0), bpm)
        invariant forall t :: t in left + right ==> fresh(t)
        invariant forall a, b :: 0 <= a < b < |left + right| ==> (left + right)[a] != (left + right)[b]
      {
        var l := new BeatTrigger(Some(TriggerWidth), Some(TriggerHeight),
          Some(Vec(target.x - StartDistance + i as real * TriggerSpacing, target.y)), Some(Vec(1.0, 0.0)), bpm);
        var r := new BeatTrigger(Some(TriggerWidth), Some(TriggerHeight),
          Some(Vec(target.x + StartDistance - i as real * TriggerSpacing, target.y)), Some(Vec(-1.0, 0.0)), bpm);
        assert forall t :: t in (left + [l]) + (right + [r]) ==> t in left + right || t == l || t == r;
        left := left + [l];
        right := right + [r];
      }
      this.bpm := bpm;
      targetPosition := target;
      leftTriggers := left;
      rightTriggers := right;
    }
  }
}
