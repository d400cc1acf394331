/**
  The player sprite of `models/player.py`: the score counters with their
  derived health and accuracy, the key-driven direction control with the
  list of held keys, the three-state walking animation, and the per-frame
  update with gravity and the floor-contact clamp.
 */
module Players {
  import opened Wrappers
  import opened Geometry
  import Collision

  /** Key identities; `Other` stands for every key the player does not react to. */
  datatype Key = A | D | W | S | Space | Equals | Minus | Other(code: int)

  const LeftKey: Key := A
  const RightKey: Key := D
  const UpKey: Key := W
  const DownKey: Key := S
  const JumpKey: Key := Space

  /** Earth gravity, in world units per second squared. */
  const Gravity: real := 1.8
  const MovementAmplitude: real := 1.0
  const DefaultMaxHealth: int := 10
  const PlayerSpeed: real := 5.0

  /** The walking animation shown: the `_direction_walking` key, or none when standing. */
  datatype Walking = Standing | WalkingLeft | WalkingRight

  /** The movement switches fixed at construction. */
  datatype Controls = Controls(horizontal: bool, vertical: bool, jump: bool, severalJumps: bool)

  /**
    `_control_movement` on a direction value: a movement key adds its unit
    vector on press and the opposite vector on release; a jump adds (0, 1)
    on press only, and only with several jumps allowed or a floor touched.
    Each component moves by at most one unit, and only for a key of its axis.
   */
  function Steer(d: Vec, key: Key, release: bool, c: Controls, touchingFloor: bool): (r: Vec)
    ensures -MovementAmplitude <= r.x - d.x <= MovementAmplitude
    ensures -MovementAmplitude <= r.y - d.y <= MovementAmplitude
    ensures key != LeftKey && key != RightKey ==> r.x == d.x
    ensures key != UpKey && key != DownKey && key != JumpKey ==> r.y == d.y
  {
    var sign := if release then -1.0 else 1.0;
    var afterHorizontal :=
      if c.horizontal && key == LeftKey then d.Plus(Vec(-sign * MovementAmplitude, 0.0))
      else if c.horizontal && key == RightKey then d.Plus(Vec(sign * MovementAmplitude, 0.0))
      else d;
    var afterVertical :=
      if c.vertical && key == UpKey then afterHorizontal.Plus(Vec(0.0, sign * MovementAmplitude))
      else if c.vertical && key == DownKey then afterHorizontal.Plus(Vec(0.0, -sign * MovementAmplitude))
      else afterHorizontal;
    if c.jump && key == JumpKey && !release && (c.severalJumps || touchingFloor) then
      afterVertical.Plus(Vec(0.0, MovementAmplitude))
    else
      afterVertical
  }

  /** Releasing a key undoes pressing it, for every key but an enabled jump. */
  lemma ReleaseUndoesPress(d: Vec, key: Key, c: Controls, touchingOnPress: bool, touchingOnRelease: bool)
    requires !(c.jump && key == JumpKey)
    ensures Steer(Steer(d, key, false, c, touchingOnPress), key, true, c, touchingOnRelease) == d
  {
  }

  /** Pressing a key undoes releasing it, for every key but an enabled jump. */
  lemma PressUndoesRelease(d: Vec, key: Key, c: Controls, touchingOnRelease: bool, touchingOnPress: bool)
    requires !(c.jump && key == JumpKey)
    ensures Steer(Steer(d, key, true, c, touchingOnRelease), key, false, c, touchingOnPress) == d
  {
  }

  /** What one press does: a unit step along the key's axis when that axis is enabled. */
  lemma PressEffect(d: Vec, c: Controls, touching: bool)
    ensures Steer(d, LeftKey, false, c, touching) == (if c.horizontal then Vec(d.x - 1.0, d.y) else d)
    ensures Steer(d, RightKey, false, c, touching) == (if c.horizontal then Vec(d.x + 1.0, d.y) else d)
    ensures Steer(d, UpKey, false, c, touching) == (if c.vertical then Vec(d.x, d.y + 1.0) else d)
    ensures Steer(d, DownKey, false, c, touching) == (if c.vertical then Vec(d.x, d.y - 1.0) else d)
  {
  }

  /** A jump adds (0, 1) on press when allowed, and never does anything on release. */
  lemma JumpOnlyOnPress(d: Vec, c: Controls, touching: bool)
    ensures Steer(d, JumpKey, false, c, touching) ==
      (if c.jump && (c.severalJumps || touching) then Vec(d.x, d.y + 1.0) else d)
    ensures Steer(d, JumpKey, true, c, touching) == d
  {
  }

  /** Keys with no enabled role leave the direction as it is. */
  lemma InertKeysChangeNothing(d: Vec, key: Key, release: bool, c: Controls, touching: bool)
    requires !c.horizontal || (key != LeftKey && key != RightKey)
    requires !c.vertical || (key != UpKey && key != DownKey)
    requires !c.jump || key != JumpKey
    ensures Steer(d, key, release, c, touching) == d
  {
  }

  /** The position of the first occurrence of `k`. */
  function IndexOf(s: seq<Key>, k: Key): (i: nat)
    requires k in s
    ensures i < |s| && s[i] == k
    ensures forall j :: 0 <= j < i ==> s[j] != k
  {
    if s[0] == k then 0 else 1 + IndexOf(s[1..], k)
  }

  /** Cutting out the element at `i` keeps the rest, in order. */
  lemma CutAt(s: seq<Key>, i: nat)
    requires i < |s|
    ensures multiset(s[..i] + s[i + 1..]) == multiset(s) - multiset{s[i]}
    ensures forall j :: 0 <= j < i ==> (s[..i] + s[i + 1..])[j] == s[j]
    ensures forall j :: i < j < |s| ==> (s[..i] + s[i + 1..])[j - 1] == s[j]
  {
    var front, back := s[..i], s[i + 1..];
    assert s == front + [s[i]] + back;
    assert multiset(s) == multiset(front) + multiset{s[i]} + multiset(back);
    assert multiset(front + back) == multiset(front) + multiset(back);
  }

  /**
    `list.remove`: drop the first occurrence of `k`; the keys before it keep
    their places and the keys after it move down by one.
   */
  function RemoveFirst(s: seq<Key>, k: Key): (r: seq<Key>)
    requires k in s
    ensures |r| == |s| - 1
    ensures multiset(r) == multiset(s) - multiset{k}
    ensures forall j :: 0 <= j < IndexOf(s, k) ==> r[j] == s[j]
    ensures forall j :: IndexOf(s, k) <= j < |r| ==> r[j] == s[j + 1]
  {
    var i := IndexOf(s, k);
    CutAt(s, i);
    s[..i] + s[i + 1..]
  }

  /**
    Pressing and then releasing a key leaves the same multiset of held keys;
    when the key was not already held, the very same list.
   */
  lemma PressReleaseKeepsHeldKeys(s: seq<Key>, k: Key)
    ensures k in s + [k]
    ensures multiset(RemoveFirst(s + [k], k)) == multiset(s)
    ensures k !in s ==> RemoveFirst(s + [k], k) == s
  {
    assert (s + [k])[|s|] == k;
    assert multiset(s + [k]) == multiset(s) + multiset{k};
    if k !in s {
      assert forall j :: 0 <= j < |s| ==> (s + [k])[j] == s[j];
      assert IndexOf(s + [k], k) == |s|;
    }
  }

  /** Some floor collides with the given box. */
  predicate TouchingAny(b: Box, floors: seq<Box>) {
    exists j :: 0 <= j < |floors| && Collision.Colliding(b, floors[j])
  }

  /** The share `part / total` of a positive total. */
  function ShareOf(part: nat, total: nat): (a: real)
    requires part <= total && total > 0
    ensures 0.0 <= a <= 1.0
    ensures a * total as real == part as real
    ensures a == 1.0 <==> part == total
    ensures a == 0.0 <==> part == 0
  {
    var a := part as real / total as real;
    assert a * total as real == part as real;
    a
  }

  class Player {
    var position: Vec
    var direction: Vec
    const speed: real
    const controls: Controls
    /** The keys currently held, in the order they were pressed. */
    var pressedKeys: seq<Key>
    var walking: Walking
    var maxHealth: int
    var hits: nat
    var misses: nat

    /** A missing position or direction starts at (0, 0). */
    constructor (position: Option<Vec> := None, direction: Option<Vec> := None,
                 controls: Controls := Controls(false, false, false, false), maxHealth: int := DefaultMaxHealth)
      ensures this.position == (if position.Some? then position.value else Origin)
      ensures this.direction == (if direction.Some? then direction.value else Origin)
      ensures speed == PlayerSpeed && this.controls == controls
      ensures pressedKeys == [] && walking == Standing
      ensures this.maxHealth == maxHealth && hits == 0 && misses == 0
    {
      this.position := if position.Some? then position.value else Origin;
      this.direction := if direction.Some? then direction.value else Origin;
      speed := PlayerSpeed;
      this.controls := controls;
      pressedKeys := [];
      walking := Standing;
      this.maxHealth := maxHealth;
      hits := 0;
      misses := 0;
    }

    /** The player's corners: a sprite of the library's default size 1 centred on its position. */
    function Bounds(): Box
      reads this
    {
      BoxAround(position, 1.0, 1.0)
    }

    /** Health is what is left of the maximum after the misses. */
    function Health(): (h: int)
      reads this
      ensures h <= maxHealth
      ensures h == maxHealth <==> misses == 0
      ensures h + misses == maxHealth
    {
      maxHealth - misses
    }

    /** The share of judged notes that were hits; 1 before anything is judged. */
    function Accuracy(): (a: real)
      reads this
      ensures 0.0 <= a <= 1.0
      ensures hits + misses == 0 ==> a == 1.0
      ensures hits + misses > 0 ==> a * (hits + misses) as real == hits as real
      ensures a == 1.0 <==> misses == 0
      ensures a == 0.0 <==> hits == 0 && misses > 0
    {
      var total := hits + misses;
      if total != 0 then ShareOf(hits, total) else 1.0
    }

    /** Clears both counters and restores the maximum health to 10, whatever the constructor was given. */
    method Reset()
      modifies this`hits, this`misses, this`maxHealth
      ensures hits == 0 && misses == 0 && maxHealth == DefaultMaxHealth
      ensures Health() == DefaultMaxHealth && Accuracy() == 1.0
    {
      hits := 0;
      misses := 0;
      maxHealth := DefaultMaxHealth;
    }

    /** The loop of `_control_movement` that looks for a floor the player collides with. */
    method TouchingFloor(floors: seq<Box>) returns (touching: bool)
      ensures touching == TouchingAny(Bounds(), floors)
    {
      touching := false;
      var b := Bounds();
      for j := 0 to |floors|
        invariant touching <==> exists i :: 0 <= i < j && Collision.Colliding(b, floors[i])
      {
        var hit := Collision.IsColliding(b, floors[j]);
        if hit {
          touching := true;
        }
      }
    }

    /**
      `_control_movement`. `floors` is the scene's floors, or `None` while the
      player belongs to no scene, where a jump press that must look for a
      floor fails (the source raises on the missing scene) and changes nothing.
     */
    method ControlMovement(key: Key, release: bool, floors: Option<seq<Box>>) returns (ok: bool)
      modifies this`direction
      ensures ok <==> !(controls.jump && key == JumpKey && !release && !controls.severalJumps && floors.None?)
      ensures ok ==> direction == Steer(old(direction), key, release, controls, floors.Some? && TouchingAny(Bounds(), floors.value))
      ensures !ok ==> direction == old(direction)
    {
      var sign := if release then -1.0 else 1.0;
      if controls.horizontal {
        if key == LeftKey {
          direction := direction.Plus(Vec(-sign * MovementAmplitude, 0.0));
        } else if key == RightKey {
          direction := direction.Plus(Vec(sign * MovementAmplitude, 0.0));
        }
      }
      if controls.vertical {
        if key == UpKey {
          direction := direction.Plus(Vec(0.0, sign * MovementAmplitude));
        } else if key == DownKey {
          direction := direction.Plus(Vec(0.0, -sign * MovementAmplitude));
        }
      }
      ok := true;
      if controls.jump && key == JumpKey && !release {
        var jump := Vec(0.0, MovementAmplitude);
        if controls.severalJumps {
          direction := direction.Plus(jump);
        } else if floors.None? {
          ok := false;
        } else {
          var touching := TouchingFloor(floors.value);
          if touching {
            direction := direction.Plus(jump);
          }
        }
      }
    }

    /** `on_key_pressed`: the key joins the held keys and steers the player. */
    method OnKeyPressed(key: Key, floors: Option<seq<Box>>) returns (ok: bool)
      modifies this`pressedKeys, this`direction
      ensures pressedKeys == old(pressedKeys) + [key]
      ensures ok <==> !(controls.jump && key == JumpKey && !controls.severalJumps && floors.None?)
      ensures ok ==> direction == Steer(old(direction), key, false, controls, floors.Some? && TouchingAny(Bounds(), floors.value))
      ensures !ok ==> direction == old(direction)
    {
      pressedKeys := pressedKeys + [key];
      ok := ControlMovement(key, false, floors);
    }

    /**
      `on_key_released`: one occurrence of the key leaves the held keys and
      its press is undone. Releasing a key that is not held is an error
      (the source's `list.remove` raises) and changes nothing.
     */
    method OnKeyReleased(key: Key) returns (ok: bool)
      modifies this`pressedKeys, this`direction
      ensures ok <==> key in old(pressedKeys)
      ensures ok ==> pressedKeys == RemoveFirst(old(pressedKeys), key)
      ensures ok ==> direction == Steer(old(direction), key, true, controls, false)
      ensures !ok ==> pressedKeys == old(pressedKeys) && direction == old(direction)
    {
      if key !in pressedKeys {
        return false;
      }
      pressedKeys := RemoveFirst(pressedKeys, key);
      // A release never reaches the jump branch, so no scene is consulted.
      ok := ControlMovement(key, true, None);
    }

    /** `_handle_animation`: the animation follows the sign of the horizontal direction. */
    method HandleAnimation()
      modifies this`walking
      ensures walking == (if direction.x < 0.0 then WalkingLeft else if direction.x > 0.0 then WalkingRight else Standing)
    {
      var horizontal := direction.x;
      if horizontal < 0.0 && walking != WalkingLeft {
        walking := WalkingLeft;
      } else if horizontal > 0.0 && walking != WalkingRight {
        walking := WalkingRight;
      } else if horizontal == 0.0 && walking != Standing {
        walking := Standing;
      }
    }

    /**
      The movement part of `on_update`: gravity pulls the direction down, a
      floor contact with a non-positive vertical direction zeroes that
      component, the player moves by `direction * speed * dt`, and the
      animation follows.
     */
    method OnUpdate(dt: real, floors: seq<Box>)
      modifies this`direction, this`position, this`walking
      ensures var pulled := old(direction).Plus(Vec(0.0, -Gravity).Times(dt));
        direction == (if TouchingAny(old(Bounds()), floors) && pulled.y <= 0.0 then Vec(pulled.x, 0.0) else pulled)
      ensures position == old(position).Plus(direction.Times(speed).Times(dt))
      ensures walking == (if direction.x < 0.0 then WalkingLeft else if direction.x > 0.0 then WalkingRight else Standing)
    {
      direction := direction.Plus(Vec(0.0, -Gravity).Times(dt));
      ghost var pulled := direction;
      var b := Bounds();
      for j := 0 to |floors|
        invariant position == old(position)
        invariant direction == (if (exists i :: 0 <= i < j && Collision.Colliding(b, floors[i])) && pulled.y <= 0.0
                                then Vec(pulled.x, 0.0) else pulled)
      {
        var hit := Collision.IsColliding(b, floors[j]);
        if hit && direction.y <= 0.0 {
          direction := Vec(direction.x, 0.0);
        }
      }
      position := position.Plus(direction.Times(speed).Times(dt));
      HandleAnimation();
    }
  }

  /** The floor clamp keeps the horizontal component and leaves no downward motion. */
  lemma FloorClampKeepsHorizontal(d: Vec, dt: real, touching: bool)
    ensures var pulled := d.Plus(Vec(0.0, -Gravity).Times(dt));
      var clamped := if touching && pulled.y <= 0.0 then Vec(pulled.x, 0.0) else pulled;
      clamped.x == d.x && (touching ==> clamped.y >= 0.0) && (!touching ==> clamped.y == d.y - Gravity * dt)
  {
  }
}
