/**
 * Mobile entities of package `world` (pkg/server/world/mob.go): the dynamically
 * keyed attribute map each mob carries, the mob-state bitmask kept in it, the
 * 18-slot skill table, the combat helpers over integers, and the per-tick step
 * along a path.
 *
 * A Go `int` that lives in the attribute map is held by its 64-bit pattern
 * (`bv64`), since the state bitmask is combined with `|`, `&` and `-` there.
 */
module World {
  import opened Wrappers
  import opened Arith

  // Mob states, a bitmask (mob.go, the const block at the top of the file).
  const MSIdle: bv64 := 0
  const MSBanking: bv64 := 1
  const MSChatting: bv64 := 2
  const MSMenuChoosing: bv64 := 4
  const MSTrading: bv64 := 8
  const MSDueling: bv64 := 16
  const MSFighting: bv64 := 32
  const MSBatching: bv64 := 64
  const MSSleeping: bv64 := 128
  const MSBusy: bv64 := 256
  const MSChangingAppearance: bv64 := 512

  /** The direction constant `North`, declared outside mob.go; the first of the direction constants. */
  const North: bv64 := 0

  /** Number of skills in a skill table, and the slots the combat formula reads. */
  const SkillCount: int := 18
  const StatAttack: int := 0
  const StatDefense: int := 1
  const StatStrength: int := 2
  const StatHits: int := 3
  const StatRanged: int := 4
  const StatPrayer: int := 5
  const StatMagic: int := 6

  /** A tile of the world map. */
  datatype Tile = Tile(x: int, y: int)

  /** A path being walked: its waypoints and the cursor `CurrentWaypoint`. */
  datatype Pathway = Pathway(waypoints: seq<Tile>, current: int)

  /**
   * The collaborators of the movement code that live outside mob.go, passed in:
   * `tileBlocking(x, y, bit, current)` is the edge-collision test `IsTileBlocking`,
   * `waypointTile(p)` is `p.NextWaypointTile()`, `nextTileValid(p, at)` is
   * `p.NextTileFrom(at).IsValid()`, and `directionTo(from, to)` is `DirectionTo`.
   */
  datatype Env = Env(
    tileBlocking: (int, int, int, bool) -> bool,
    waypointTile: Pathway -> Tile,
    nextTileValid: (Pathway, Tile) -> bool,
    directionTo: (Tile, Tile) -> bv64)

  /** A dynamically typed attribute value: the dynamic types the getters test for, and anything else. */
  datatype Value =
    | IntVal(i: bv64)
    | BoolVal(b: bool)
    | LongVal(u: bv64)
    | TimeVal(t: int)
    | PathVal(p: Pathway)
    | MobVal(m: Mob)
    | OtherVal(tag: string)

  /** The attribute map `AttributeList.Set`; its read-write lock is not modelled. */
  class AttributeList {
    var vars: map<string, Value>

    constructor ()
      ensures vars == map[]
    {
      vars := map[];
    }

    /** `SetVar`: the key now holds the value; every other key is as it was. */
    method SetVar(name: string, value: Value)
      modifies this
      ensures vars == old(vars)[name := value]
      ensures value.IntVal? ==> forall zero :: VarInt(name, zero) == value.i
      ensures value.BoolVal? ==> forall zero :: VarBool(name, zero) == value.b
    {
      vars := vars[name := value];
    }

    /** `UnsetVar`: the key is gone, so every typed getter falls back to its default. */
    method UnsetVar(name: string)
      modifies this
      ensures vars == old(vars) - {name}
      ensures name !in vars
      ensures forall zero :: VarInt(name, zero) == zero
      ensures forall zero :: VarBool(name, zero) == zero
      ensures VarPath(name) == None && VarMob(name) == null
    {
      vars := vars - {name};
    }

    /** `VarInt`: the stored int, or `zero` when the key is absent or holds another type. */
    function VarInt(name: string, zero: bv64): (r: bv64)
      reads this
      ensures name in vars && vars[name].IntVal? ==> r == vars[name].i
      ensures !(name in vars && vars[name].IntVal?) ==> r == zero
    {
      if name in vars && vars[name].IntVal? then vars[name].i else zero
    }

    /** `VarBool`: the stored bool, or `zero` when the key is absent or holds another type. */
    function VarBool(name: string, zero: bool): (r: bool)
      reads this
      ensures name in vars && vars[name].BoolVal? ==> r == vars[name].b
      ensures !(name in vars && vars[name].BoolVal?) ==> r == zero
    {
      if name in vars && vars[name].BoolVal? then vars[name].b else zero
    }

    /** `VarPath`: the stored path, or nil. */
    function VarPath(name: string): (r: Option<Pathway>)
      reads this
      ensures r.Some? <==> name in vars && vars[name].PathVal?
      ensures r.Some? ==> vars[name] == PathVal(r.value)
    {
      if name in vars && vars[name].PathVal? then Some(vars[name].p) else None
    }

    /** `VarMob`: the stored mobile entity, or nil. */
    function VarMob(name: string): (r: Mob?)
      reads this
      ensures r != null <==> name in vars && vars[name].MobVal?
      ensures r != null ==> vars[name] == MobVal(r)
    {
      if name in vars && vars[name].MobVal? then vars[name].m else null
    }

    /** `VarTime`: the stored instant, or the zero time (0 here). */
    function VarTime(name: string): (r: int)
      reads this
      ensures name in vars && vars[name].TimeVal? ==> r == vars[name].t
      ensures !(name in vars && vars[name].TimeVal?) ==> r == 0
    {
      if name in vars && vars[name].TimeVal? then vars[name].t else 0
    }

    /** `MaskInt`: ors the mask into the stored int; a missing or non-int entry counts as `MSIdle`. */
    method MaskInt(name: string, mask: bv64)
      modifies this
      ensures vars == old(vars)[name := IntVal(Masked(old(VarInt(name, MSIdle)), mask))]
      ensures mask != 0 ==> MaskSet(name, mask)
    {
      if name in vars && vars[name].IntVal? {
        vars := vars[name := IntVal(Masked(vars[name].i, mask))];
        return;
      }
      vars := vars[name := IntVal(Masked(MSIdle, mask))];
    }

    /**
     * `UnmaskInt`: stores `val & 0xFFFFFFFF - mask` (Go's `&` binds tighter than `-`),
     * or `MSIdle` when the entry is missing or not an int.
     */
    method UnmaskInt(name: string, mask: bv64)
      modifies this
      ensures name in old(vars) && old(vars)[name].IntVal? ==>
        vars == old(vars)[name := IntVal(Unmasked(old(vars)[name].i, mask))]
      ensures !(name in old(vars) && old(vars)[name].IntVal?) ==> vars == old(vars)[name := IntVal(MSIdle)]
    {
      if name in vars && vars[name].IntVal? {
        vars := vars[name := IntVal(Unmasked(vars[name].i, mask))];
        return;
      }
      vars := vars[name := IntVal(MSIdle)];
    }

    /**
     * `CheckMask`: both branches test a zero value (the failed type assertion's
     * zero, or the literal 0), so it never reports a set mask.
     */
    function CheckMask(name: string, mask: bv64): (r: bool)
      reads this
      ensures !r
    {
      var ok := name in vars && vars[name].IntVal?;
      var val: bv64 := if ok then vars[name].i else 0;
      if !ok then val & mask != 0 else 0 & mask != 0
    }

    /**
     * The test `CheckMask` is documented to perform: the stored int has a bit of
     * `mask` set; a missing or non-int entry has none.
     */
    function MaskSet(name: string, mask: bv64): (r: bool)
      reads this
      ensures r ==> name in vars && vars[name].IntVal? && mask != 0
      ensures name in vars && vars[name].IntVal? ==> (r <==> vars[name].i & mask != 0)
    {
      if name in vars && vars[name].IntVal? then vars[name].i & mask != 0 else false
    }
  }

  /** A chatting mob: `CheckMask` answers no for the chatting bit, while the documented test answers yes. */
  lemma CheckMaskMissesHeldBit(attrs: AttributeList)
    requires attrs.vars == map["state" := IntVal(MSChatting)]
    ensures attrs.VarInt("state", MSIdle) == MSChatting
    ensures !attrs.CheckMask("state", MSChatting) && attrs.MaskSet("state", MSChatting)
  {
  }

  /** For a single-bit mask the documented test is `HasState`. */
  lemma MaskSetIsHasState(m: Mob, bit: bv64)
    requires bit != 0 && bit & (bit - 1) == 0
    ensures m.attrs.MaskSet("state", bit) <==> m.HasState(bit)
  {
    var s := m.State();
    SingleBit(s, bit);
  }

  /** A single bit is either wholly set or wholly clear. */
  lemma SingleBit(s: bv64, bit: bv64)
    requires bit != 0 && bit & (bit - 1) == 0
    ensures s & bit != 0 <==> s & bit == bit
  {
  }

  /** `MaskInt`'s arithmetic on a stored int. */
  function Masked(v: bv64, mask: bv64): bv64 {
    v | mask
  }

  /** `UnmaskInt`'s arithmetic on a stored int: Go's `val & 0xFFFFFFFF - mask`, where `&` binds tighter than `-`. */
  function Unmasked(v: bv64, mask: bv64): bv64 {
    (v & 0xFFFF_FFFF) - mask
  }

  /** Every bit of `mask` is set in `state`: the test behind `HasState`. */
  predicate Holds(state: bv64, mask: bv64) {
    state & mask == mask
  }

  /** After oring a mask in, every bit of it is held, and a held mask is not changed by oring it in again. */
  lemma OrHolds(state: bv64, mask: bv64)
    ensures Holds(Masked(state, mask), mask)
    ensures Holds(state, mask) ==> Masked(state, mask) == state
    ensures mask != 0 ==> Masked(state, mask) != 0
  {
  }

  /** Only the empty mask is held by the idle state. */
  lemma HoldsNothing(mask: bv64)
    requires Holds(MSIdle, mask)
    ensures mask == 0
  {
  }

  /**
   * `RemoveState`'s arithmetic: when the mask is held, subtracting it from the low
   * 32 bits borrows nothing, so it clears exactly the mask's bits there.
   */
  lemma UnmaskClears(state: bv64, mask: bv64)
    requires Holds(state, mask) && mask < 0x1_0000_0000
    ensures Unmasked(state, mask) == (state & 0xFFFF_FFFF) & !mask
  {
  }

  /** After `RemoveState`'s arithmetic a non-zero mask below bit 32 is no longer held. */
  lemma UnmaskDrops(state: bv64, mask: bv64)
    requires Holds(state, mask) && 0 < mask < 0x1_0000_0000
    ensures !Holds(Unmasked(state, mask), mask)
  {
  }

  /** On a state below bit 32, `RemoveState`'s arithmetic is clearing the mask's bits. */
  lemma UnmaskIsClear(state: bv64, mask: bv64)
    requires Holds(state, mask) && mask < 0x1_0000_0000 && state < 0x1_0000_0000
    ensures Unmasked(state, mask) == state & !mask
  {
  }

  /** One step along an axis: stay, or move by one toward `target`, never away from it. */
  predicate Toward(from: int, to: int, target: int) {
    to == from || (to == from + 1 && from < target) || (to == from - 1 && from > target)
  }

  /** `FinishedPath` for a mob at `at`: no path, the cursor is past the last waypoint, or the next tile is invalid. */
  predicate Finished(path: Option<Pathway>, at: Tile, env: Env) {
    path.None? || path.value.current >= |path.value.waypoints| || !env.nextTileValid(path.value, at)
  }

  /** The path after the first statement of `TraversePath`: the cursor moves on when the mob stands on the waypoint. */
  function Advanced(p: Pathway, at: Tile, env: Env): (r: Pathway)
    ensures r.waypoints == p.waypoints
    ensures r.current == if at == env.waypointTile(p) then p.current + 1 else p.current
  {
    if at == env.waypointTile(p) then p.(current := p.current + 1) else p
  }

  /**
   * The collision checks of `TraversePath` for a mob at `at` heading to `dst`:
   * each axis steps one tile toward `dst` unless the next tile's facing edge
   * blocks it; the path is abandoned (`None`) when a wall of the current tile
   * blocks the only useful axis, when the step found is blocked, or when the
   * tile stepped to is blocked on the side it is entered from.
   */
  function NextTile(at: Tile, dst: Tile, env: Env): (r: Option<Tile>)
    ensures r.Some? ==> Toward(at.x, r.value.x, dst.x) && Toward(at.y, r.value.y, dst.y)
    ensures r.Some? && r.value == at ==> at == dst
    ensures r.Some? && r.value.y == at.y - 1 ==> !env.tileBlocking(at.x, at.y - 1, 4, false)
    ensures r.Some? && r.value.y == at.y + 1 ==> !env.tileBlocking(at.x, at.y + 1, 1, false)
    ensures r.Some? && r.value.x == at.x - 1 ==> !env.tileBlocking(at.x - 1, r.value.y, 8, false)
    ensures r.Some? && r.value.x == at.x + 1 ==> !env.tileBlocking(at.x + 1, r.value.y, 2, false)
  {
    var x, y := at.x, at.y;
    var blocking := env.tileBlocking;
    // Vertical axis first (north is smaller y).
    var yBlocked := if y > dst.y then blocking(x, y, 1, true) else if y < dst.y then blocking(x, y, 4, true) else false;
    var newYBlocked := if y > dst.y then blocking(x, y - 1, 4, false) else if y < dst.y then blocking(x, y + 1, 1, false) else false;
    var nextY := if y > dst.y && !newYBlocked then y - 1 else if y < dst.y && !newYBlocked then y + 1 else y;
    // Then the horizontal axis, on the row just chosen.
    var xBlocked := if x > dst.x then blocking(x, nextY, 2, true) else if x < dst.x then blocking(x, nextY, 8, true) else false;
    var newXBlocked := if x > dst.x then blocking(x - 1, nextY, 8, false) else if x < dst.x then blocking(x + 1, nextY, 2, false) else false;
    var nextX := if x > dst.x && !newXBlocked then x - 1 else if x < dst.x && !newXBlocked then x + 1 else x;
    if (xBlocked && yBlocked) || (xBlocked && y == dst.y) || (yBlocked && x == dst.x) then None
    else if (newXBlocked && newYBlocked) || (newXBlocked && x != nextX && y == nextY) || (newYBlocked && y != nextY && x == nextX) then None
    else
      // The tile stepped to, checked on the sides it is entered from.
      var newXBlocked' := if nextX > x then blocking(nextX, nextY, 2, false) else if nextX < x then blocking(nextX, nextY, 8, false) else newXBlocked;
      var newYBlocked' := if nextY > y then blocking(nextX, nextY, 1, false) else if nextY < y then blocking(nextX, nextY, 4, false) else newYBlocked;
      if (newXBlocked' && newYBlocked') || (newXBlocked' && y == nextY) || (newYBlocked' && x == nextX) then None
      else Some(Tile(nextX, nextY))
  }

  /**
   * Walking straight along one axis: the step is taken exactly when neither the
   * current tile's wall on that side nor the next tile's facing wall blocks, and
   * the path is abandoned otherwise.
   */
  lemma StraightSteps(at: Tile, dst: Tile, env: Env)
    ensures at.x == dst.x && at.y > dst.y ==>
      NextTile(at, dst, env) == if env.tileBlocking(at.x, at.y, 1, true) || env.tileBlocking(at.x, at.y - 1, 4, false)
                                then None else Some(Tile(at.x, at.y - 1))
    ensures at.x == dst.x && at.y < dst.y ==>
      NextTile(at, dst, env) == if env.tileBlocking(at.x, at.y, 4, true) || env.tileBlocking(at.x, at.y + 1, 1, false)
                                then None else Some(Tile(at.x, at.y + 1))
    ensures at.y == dst.y && at.x > dst.x ==>
      NextTile(at, dst, env) == if env.tileBlocking(at.x, at.y, 2, true) || env.tileBlocking(at.x - 1, at.y, 8, false)
                                then None else Some(Tile(at.x - 1, at.y))
    ensures at.y == dst.y && at.x < dst.x ==>
      NextTile(at, dst, env) == if env.tileBlocking(at.x, at.y, 8, true) || env.tileBlocking(at.x + 1, at.y, 2, false)
                                then None else Some(Tile(at.x + 1, at.y))
    ensures at == dst ==> NextTile(at, dst, env) == Some(at)
  {
  }

  /** A mobile entity: its index and coordinates (`Entity`) and its attribute map (`TransAttrs`). */
  class Mob {
    var index: int
    var x: int
    var y: int
    const attrs: AttributeList

    constructor (index: int, x: int, y: int)
      ensures this.index == index && this.x == x && this.y == y
      ensures fresh(attrs) && attrs.vars == map[]
    {
      this.index := index;
      this.x := x;
      this.y := y;
      attrs := new AttributeList();
    }

    /** `State`: the state bitmask, `MSIdle` when unset. */
    function State(): (state: bv64)
      reads attrs
      ensures "state" in attrs.vars && attrs.vars["state"].IntVal? ==> state == attrs.vars["state"].i
      ensures !("state" in attrs.vars && attrs.vars["state"].IntVal?) ==> state == MSIdle
    {
      attrs.VarInt("state", MSIdle)
    }

    /** `HasState`: every bit of `state` is set, so `HasState(MSIdle)` always holds. */
    predicate HasState(state: bv64): (held: bool)
      reads attrs
      ensures state == MSIdle ==> held
      ensures held <==> Masked(State(), state) == State()
    {
      OrHolds(State(), state);
      Holds(State(), state)
    }

    /** `Busy`: the state is anything but idle. */
    predicate Busy(): (busy: bool)
      reads attrs
      ensures !busy <==> forall mask: bv64 :: HasState(mask) ==> mask == MSIdle
    {
      assert HasState(State());
      State() != MSIdle
    }

    /** `AddState`: no change when already held; otherwise the state becomes `old | state`. */
    method AddState(state: bv64)
      modifies attrs
      ensures old(HasState(state)) ==> attrs.vars == old(attrs.vars)
      ensures !old(HasState(state)) ==> attrs.vars == old(attrs.vars)["state" := IntVal(Masked(old(State()), state))]
      ensures State() == Masked(old(State()), state)
      ensures HasState(state)
      ensures state != MSIdle ==> Busy()
    {
      var before := State();
      OrHolds(before, state);
      if HasState(state) {
        return;
      }
      attrs.MaskInt("state", state);
      assert State() == Masked(before, state);
    }

    /**
     * `RemoveState`: no change when not held; otherwise the state becomes
     * `old & 0xFFFFFFFF - state`, which no longer holds a non-zero mask below bit 32
     * (`UnmaskIsClear` gives the bit-clearing reading of it).
     */
    method RemoveState(state: bv64)
      modifies attrs
      ensures !old(HasState(state)) ==> attrs.vars == old(attrs.vars)
      ensures old(HasState(state)) ==>
        attrs.vars == old(attrs.vars)["state" := IntVal(Unmasked(old(State()), state))]
      ensures old(HasState(state)) ==> State() == Unmasked(old(State()), state)
      ensures old(HasState(state)) && 0 < state < 0x1_0000_0000 ==> !HasState(state)
    {
      if !HasState(state) {
        return;
      }
      var before := State();
      if !("state" in attrs.vars && attrs.vars["state"].IntVal?) {
        HoldsNothing(state);
      }
      attrs.UnmaskInt("state", state);
      assert State() == Unmasked(before, state);
      if 0 < state < 0x1_0000_0000 {
        UnmaskDrops(before, state);
      }
    }

    /** `Direction`: the facing direction, `North` when unset. */
    function Direction(): (d: bv64)
      reads attrs
      ensures "direction" in attrs.vars && attrs.vars["direction"].IntVal? ==> d == attrs.vars["direction"].i
      ensures !("direction" in attrs.vars && attrs.vars["direction"].IntVal?) ==> d == North
    {
      attrs.VarInt("direction", North)
    }

    /** `Change`: raises the "changed" synchronisation flag. */
    method Change()
      modifies attrs
      ensures attrs.vars == old(attrs.vars)["changed" := BoolVal(true)]
    {
      attrs.SetVar("changed", BoolVal(true));
    }

    /** `SetDirection`: raises "changed", then stores the direction. */
    method SetDirection(direction: bv64)
      modifies attrs
      ensures attrs.vars == old(attrs.vars)["changed" := BoolVal(true)]["direction" := IntVal(direction)]
      ensures Direction() == direction
    {
      Change();
      attrs.SetVar("direction", IntVal(direction));
    }

    /** `Move`: raises the "moved" synchronisation flag. */
    method Move()
      modifies attrs
      ensures attrs.vars == old(attrs.vars)["moved" := BoolVal(true)]
    {
      attrs.SetVar("moved", BoolVal(true));
    }

    /** `Remove`: raises the "remove" synchronisation flag. */
    method Remove()
      modifies attrs
      ensures attrs.vars == old(attrs.vars)["remove" := BoolVal(true)]
    {
      attrs.SetVar("remove", BoolVal(true));
    }

    /** `ResetMoved`: drops the "moved" flag. */
    method ResetMoved()
      modifies attrs
      ensures attrs.vars == old(attrs.vars) - {"moved"}
    {
      attrs.UnsetVar("moved");
    }

    /** `Path`: the path being walked, nil when none. */
    function Path(): (p: Option<Pathway>)
      reads attrs
      ensures p.Some? <==> "path" in attrs.vars && attrs.vars["path"].PathVal?
      ensures p.Some? ==> attrs.vars["path"] == PathVal(p.value)
    {
      attrs.VarPath("path")
    }

    /** `SetPath`: stores the path. */
    method SetPath(path: Pathway)
      modifies attrs
      ensures attrs.vars == old(attrs.vars)["path" := PathVal(path)]
      ensures Path() == Some(path)
    {
      attrs.SetVar("path", PathVal(path));
    }

    /** `ResetPath`: drops the "moved" flag and the path. */
    method ResetPath()
      modifies attrs
      ensures attrs.vars == old(attrs.vars) - {"moved"} - {"path"}
      ensures Path() == None
    {
      ResetMoved();
      attrs.UnsetVar("path");
    }

    /** `FinishedPath`: no path, a cursor past the last waypoint, or an invalid next tile. */
    predicate FinishedPath(env: Env): (done: bool)
      reads this, attrs
      ensures Path().None? ==> done
      ensures !done ==> Path().Some? && Path().value.current < |Path().value.waypoints|
      ensures !done ==> env.nextTileValid(Path().value, Tile(x, y))
      ensures Path().Some? && Path().value.current < |Path().value.waypoints| && env.nextTileValid(Path().value, Tile(x, y)) ==> !done
    {
      Finished(Path(), Tile(x, y), env)
    }

    /**
     * `SetCoords`: a walk faces the new tile and raises "moved" (and "changed");
     * a teleport raises "remove" instead. Both set the coordinates.
     */
    method SetCoords(x: int, y: int, teleport: bool, env: Env)
      modifies this, attrs
      ensures this.x == x && this.y == y && index == old(index)
      ensures !teleport ==> attrs.vars == old(attrs.vars)["changed" := BoolVal(true)]
        ["direction" := IntVal(env.directionTo(Tile(old(this.x), old(this.y)), Tile(x, y)))]["moved" := BoolVal(true)]
      ensures teleport ==> attrs.vars == old(attrs.vars)["remove" := BoolVal(true)]
    {
      if !teleport {
        SetDirection(env.directionTo(Tile(this.x, this.y), Tile(x, y)));
        Move();
      } else {
        Remove();
      }
      this.x := x;
      this.y := y;
    }

    /** `Teleport`: `SetCoords` with the teleport flag. */
    method Teleport(x: int, y: int, env: Env)
      modifies this, attrs
      ensures this.x == x && this.y == y && index == old(index)
      ensures attrs.vars == old(attrs.vars)["remove" := BoolVal(true)]
    {
      SetCoords(x, y, true, env);
    }

    /**
     * `TraversePath` (the Player and NPC copies are the same): one tick of walking.
     * The cursor moves on when the mob stands on its waypoint; a finished path is
     * dropped; otherwise the mob walks to `NextTile` toward the waypoint, or drops
     * the path where `NextTile` finds no way.
     */
    method TraversePath(env: Env)
      modifies this, attrs
      ensures index == old(index)
      ensures old(Path()).None? ==> x == old(x) && y == old(y) && attrs.vars == old(attrs.vars)
      ensures old(Path()).Some? ==>
        var at := Tile(old(x), old(y));
        var p := Advanced(old(Path()).value, at, env);
        if Finished(Some(p), at, env) then
          && x == old(x) && y == old(y) && Path() == None
          && attrs.vars == old(attrs.vars) - {"moved"} - {"path"}
        else match NextTile(at, env.waypointTile(p), env)
          case None =>
            && x == old(x) && y == old(y) && Path() == None
            && attrs.vars == old(attrs.vars) - {"moved"} - {"path"}
          case Some(next) =>
            && x == next.x && y == next.y && Path() == Some(p)
            && attrs.VarBool("moved", false) && Direction() == env.directionTo(at, next)
            && attrs.vars == old(attrs.vars)["path" := PathVal(p)]["changed" := BoolVal(true)]
                 ["direction" := IntVal(env.directionTo(at, next))]["moved" := BoolVal(true)]
    {
      var path := Path();
      if path.None? {
        return;
      }
      var p := path.value;
      if Tile(x, y) == env.waypointTile(p) {
        p := p.(current := p.current + 1);
        SetPath(p);
      }
      // The path entry now holds the advanced path, whether or not it moved on.
      assert attrs.vars == old(attrs.vars)["path" := PathVal(p)];
      if FinishedPath(env) {
        ResetPath();
        assert attrs.vars == old(attrs.vars) - {"moved"} - {"path"};
        return;
      }
      var next := NextTile(Tile(x, y), env.waypointTile(p), env);
      if next.None? {
        ResetPath();
        assert attrs.vars == old(attrs.vars) - {"moved"} - {"path"};
        return;
      }
      SetCoords(next.value.x, next.value.y, false, env);
    }

    /** `IsFighting`: in the fighting state with a fight target stored. */
    predicate IsFighting(): (fighting: bool)
      reads attrs
      ensures fighting <==> HasState(MSFighting) && FightTarget() != null
      ensures fighting ==> Busy()
    {
      HasState(MSFighting) && attrs.VarMob("fightTarget") != null
    }

    /** `FightTarget`: the stored fight target, or nil. */
    function FightTarget(): (target: Mob?)
      reads attrs
      ensures target != null <==> "fightTarget" in attrs.vars && attrs.vars["fightTarget"].MobVal?
      ensures target != null ==> attrs.vars["fightTarget"] == MobVal(target)
    {
      attrs.VarMob("fightTarget")
    }

    /** `UpdateLastFight`: records the current instant under "lastFight". */
    method UpdateLastFight(now: int)
      modifies attrs
      ensures attrs.vars == old(attrs.vars)["lastFight" := TimeVal(now)]
      ensures attrs.VarTime("lastFight") == now
    {
      attrs.SetVar("lastFight", TimeVal(now));
    }

    /** The attribute maps `ResetFighting` may write: this mob's and its fight target's. */
    function FightFootprint(): set<object>
      reads attrs
    {
      {attrs} + (if FightTarget() == null then {} else {FightTarget().attrs})
    }

    /**
     * The steps `ResetFighting` applies to each fighting mob: drop the fight target
     * and round, face north, leave the fighting state and record the time. (The
     * source records the time first for the target and last for the mob itself;
     * the keys are distinct, so the resulting map is the same.)
     */
    method LeaveFight(now: int)
      requires IsFighting()
      modifies attrs
      ensures attrs.vars == LeftFight(old(attrs.vars), old(State()), now)
      ensures FightTarget() == null && !IsFighting()
      ensures "fightRound" !in attrs.vars
      ensures Direction() == North && attrs.VarTime("lastFight") == now
      ensures State() == Unmasked(old(State()), MSFighting)
    {
      attrs.UnsetVar("fightTarget");
      attrs.UnsetVar("fightRound");
      SetDirection(North);
      RemoveState(MSFighting);
      UpdateLastFight(now);
    }

    /**
     * `ResetFighting`: first a fighting target, then this mob if it is still
     * fighting, leave the fight. Afterwards neither of them is fighting.
     */
    method ResetFighting(now: int)
      modifies FightFootprint()
      ensures !IsFighting()
      ensures old(FightTarget()) != null ==> !old(FightTarget()).IsFighting()
      ensures old(FightTarget()) != null && old(FightTarget().IsFighting()) ==>
        old(FightTarget()).attrs.vars == LeftFight(old(FightTarget().attrs.vars), old(FightTarget().State()), now)
      ensures old(FightTarget()) != null && !old(FightTarget().IsFighting()) && old(FightTarget()).attrs != attrs ==>
        old(FightTarget()).attrs.vars == old(FightTarget().attrs.vars)
      ensures old(IsFighting()) && (old(FightTarget()) == null || old(FightTarget()).attrs != attrs) ==>
        attrs.vars == LeftFight(old(attrs.vars), old(State()), now)
      ensures !old(IsFighting()) && (old(FightTarget()) == null || old(FightTarget()).attrs != attrs) ==>
        attrs.vars == old(attrs.vars)
    {
      var target := FightTarget();
      if target != null && target.IsFighting() {
        target.LeaveFight(now);
      }
      if IsFighting() {
        LeaveFight(now);
      }
    }

    /** `FightMode`: 0 all, 1 aggressive, 2 accurate, 3 defensive; 0 when unset. */
    function FightMode(): (mode: bv64)
      reads attrs
      ensures "fight_mode" in attrs.vars && attrs.vars["fight_mode"].IntVal? ==> mode == attrs.vars["fight_mode"].i
      ensures !("fight_mode" in attrs.vars && attrs.vars["fight_mode"].IntVal?) ==> mode == 0
    {
      attrs.VarInt("fight_mode", 0)
    }

    /**
     * `StyleBonus`: 1 in fight mode 0; 3 for the stat the mode trains
     * (mode 2 attack, mode 1 strength, mode 3 defense); 0 otherwise.
     */
    function StyleBonus(stat: int): (r: int)
      reads attrs
      ensures r == 0 || r == 1 || r == 3
      ensures r == 1 <==> FightMode() == 0
      ensures r == 3 <==> (FightMode() == 2 && stat == StatAttack) || (FightMode() == 1 && stat == StatStrength)
                          || (FightMode() == 3 && stat == StatDefense)
    {
      var mode := attrs.VarInt("fight_mode", 0);
      if mode == 0 then 1
      else if (mode == 2 && stat == 0) || (mode == 1 && stat == 2) || (mode == 3 && stat == 1) then 3
      else 0
    }
  }

  /**
   * The attribute map of a mob that leaves a fight at `now`, given its map and
   * state before: the fight target and round are gone, "changed" is raised, the
   * mob faces north, the fighting bit is subtracted and the time is recorded;
   * every other key is kept.
   */
  function LeftFight(vars: map<string, Value>, state: bv64, now: int): (r: map<string, Value>)
    ensures "fightTarget" !in r && "fightRound" !in r
    ensures "changed" in r && r["changed"] == BoolVal(true)
    ensures "direction" in r && r["direction"] == IntVal(North)
    ensures "state" in r && r["state"] == IntVal(Unmasked(state, MSFighting))
    ensures "lastFight" in r && r["lastFight"] == TimeVal(now)
    ensures forall k :: k in vars && k != "fightTarget" && k != "fightRound" ==> k in r
    ensures forall k :: k in r && k != "changed" && k != "direction" && k != "state" && k != "lastFight" ==>
      k in vars && r[k] == vars[k]
  {
    (vars - {"fightTarget"} - {"fightRound"})["changed" := BoolVal(true)]["direction" := IntVal(North)]
      ["state" := IntVal(Unmasked(state, MSFighting))]["lastFight" := TimeVal(now)]
  }

  /** Truncating division by a positive divisor is monotone. */
  lemma {:induction false} QuotMonotone(a: int, b: int, d: int)
    requires a <= b && 0 < d
    ensures Quot(a, d) <= Quot(b, d)
  {
    if 0 <= a {
      DivMonotone(a, b, d);
    } else if b < 0 {
      QuotNegative(a, d);
      QuotNegative(b, d);
      DivMonotone(-b, -a, d);
    } else {
      QuotNegative(a, d);
      QuotNonnegative(b, d);
    }
  }

  /** A nonnegative dividend: the quotient is nonnegative. */
  lemma QuotNonnegative(a: int, d: int)
    requires 0 <= a && 0 < d
    ensures 0 <= Quot(a, d)
  {
    var q, r := a / d, a % d;
    assert q * d + r == a && 0 <= r < d;
    // Were `q < 0`, then `a == q * d + r <= -d + r < 0`.
    MulMonotone(if q < 0 then q else -1, -1, d);
  }

  /** A negative dividend: the quotient is the negated quotient of its magnitude, so never positive. */
  lemma QuotNegative(a: int, d: int)
    requires a < 0 && 0 < d
    ensures Quot(a, d) == -((-a) / d) <= 0
  {
  }

  /** Euclidean division of naturals by a positive divisor is monotone. */
  lemma {:induction false} DivMonotone(a: int, b: int, d: int)
    requires 0 <= a <= b && 0 < d
    ensures a / d <= b / d
  {
    var qa, qb := a / d, b / d;
    assert qa * d <= a && b < qb * d + d;
    // Were `qb < qa`, then `b < (qb + 1) * d <= qa * d <= a`.
    MulMonotone(qb + 1, if qb < qa then qa else qb + 1, d);
  }

  lemma {:induction false} MulMonotone(x: int, y: int, d: int)
    requires x <= y && 0 < d
    ensures x * d <= y * d
  {
    assert y * d - x * d == (y - x) * d;
  }

  /** `int(float32(n) / 8)` on values the float represents exactly is `n / 8` truncated. */
  lemma TruncEighths(n: int)
    ensures TruncReal(n as real / 8.0) == Quot(n, 8)
  {
    var q, r := Quot(n, 8), Rem(n, 8);
    assert n == q * 8 + r;
    assert n as real / 8.0 == q as real + r as real / 8.0;
  }

  /** The 18-slot skill table: current levels, maximum levels and experience, updated in place. */
  class SkillTable {
    const current: array<int>
    const maximum: array<int>
    const experience: array<int>

    ghost predicate Valid() {
      current.Length == SkillCount && maximum.Length == SkillCount && experience.Length == SkillCount
      && current != maximum && current != experience && maximum != experience
    }

    constructor ()
      ensures Valid() && fresh(current) && fresh(maximum) && fresh(experience)
      ensures forall i :: 0 <= i < SkillCount ==> current[i] == 0 && maximum[i] == 0 && experience[i] == 0
    {
      current := new int[SkillCount](_ => 0);
      maximum := new int[SkillCount](_ => 0);
      experience := new int[SkillCount](_ => 0);
    }

    /** `Current`: the current (possibly boosted or drained) level of the skill. */
    function Current(idx: int): (v: int)
      requires Valid() && 0 <= idx < SkillCount
      reads current
      ensures v in current[..] && v == current[..][idx]
    {
      current[idx]
    }

    /** `Maximum`: the skill's level proper. */
    function Maximum(idx: int): (v: int)
      requires Valid() && 0 <= idx < SkillCount
      reads maximum
      ensures v in maximum[..] && v == maximum[..][idx]
    {
      maximum[idx]
    }

    /** `Experience`: the experience points in the skill. */
    function Experience(idx: int): (v: int)
      requires Valid() && 0 <= idx < SkillCount
      reads experience
      ensures v in experience[..] && v == experience[..][idx]
    {
      experience[idx]
    }

    /** `DecreaseCur`: only the indexed current level changes. */
    method DecreaseCur(idx: int, delta: int)
      requires Valid() && 0 <= idx < SkillCount
      modifies current
      ensures current[..] == old(current[..])[idx := old(current[idx]) - delta]
    {
      current[idx] := current[idx] - delta;
    }

    /** `IncreaseCur`: only the indexed current level changes. */
    method IncreaseCur(idx: int, delta: int)
      requires Valid() && 0 <= idx < SkillCount
      modifies current
      ensures current[..] == old(current[..])[idx := old(current[idx]) + delta]
    {
      current[idx] := current[idx] + delta;
    }

    /** `SetCur`: only the indexed current level changes. */
    method SetCur(idx: int, val: int)
      requires Valid() && 0 <= idx < SkillCount
      modifies current
      ensures current[..] == old(current[..])[idx := val]
    {
      current[idx] := val;
    }

    /** `DecreaseMax`: only the indexed maximum level changes. */
    method DecreaseMax(idx: int, delta: int)
      requires Valid() && 0 <= idx < SkillCount
      modifies maximum
      ensures maximum[..] == old(maximum[..])[idx := old(maximum[idx]) - delta]
    {
      maximum[idx] := maximum[idx] - delta;
    }

    /** `IncreaseMax`: only the indexed maximum level changes. */
    method IncreaseMax(idx: int, delta: int)
      requires Valid() && 0 <= idx < SkillCount
      modifies maximum
      ensures maximum[..] == old(maximum[..])[idx := old(maximum[idx]) + delta]
    {
      maximum[idx] := maximum[idx] + delta;
    }

    /** `SetMax`: only the indexed maximum level changes. */
    method SetMax(idx: int, val: int)
      requires Valid() && 0 <= idx < SkillCount
      modifies maximum
      ensures maximum[..] == old(maximum[..])[idx := val]
    {
      maximum[idx] := val;
    }

    /** `SetExp`: only the indexed experience changes. */
    method SetExp(idx: int, val: int)
      requires Valid() && 0 <= idx < SkillCount
      modifies experience
      ensures experience[..] == old(experience[..])[idx := val]
    {
      experience[idx] := val;
    }

    /** `IncExp`: only the indexed experience changes. */
    method IncExp(idx: int, val: int)
      requires Valid() && 0 <= idx < SkillCount
      modifies experience
      ensures experience[..] == old(experience[..])[idx := old(experience[idx]) + val]
    {
      experience[idx] := experience[idx] + val;
    }

    /**
     * `CombatLevel`, computed as the source does in float32 (exact here: every
     * intermediate is a multiple of 1/8). It equals, in integers, an eighth of
     * twice the defensive total plus eight times the spiritual total plus the
     * larger of twice the aggressive total and three times ranged, truncated.
     */
    function CombatLevel(): (r: int)
      requires Valid()
      reads maximum
      ensures r == CombatOf(maximum[..])
    {
      Float32CombatLevel(maximum[0] + maximum[2], maximum[1] + maximum[3], Quot(maximum[5] + maximum[6], 8), maximum[4])
    }
  }

  /**
   * The combat level in integers: an eighth, truncated, of twice the defensive
   * total plus eight times the spiritual total plus the larger of twice the
   * aggressive total and three times the ranged level.
   */
  function CombatFormula(aggressive: int, defensive: int, spiritual: int, ranged: int): int {
    Quot(2 * defensive + 8 * spiritual + (if 2 * aggressive < 3 * ranged then 3 * ranged else 2 * aggressive), 8)
  }

  /**
   * The float32 arithmetic of `CombatLevel` on the four totals: a ranged build
   * when the aggressive total is below one and a half times ranged, a melee
   * build otherwise.
   */
  function Float32CombatLevel(aggressive: int, defensive: int, spiritual: int, ranged: int): (level: int)
    ensures level == CombatFormula(aggressive, defensive, spiritual, ranged)
  {
    var a, d, s, r := aggressive as real, defensive as real, spiritual as real, ranged as real;
    var level := if a < r * 1.5 then TruncReal(d / 4.0 + r * 0.375 + s) else TruncReal(a / 4.0 + d / 4.0 + s);
    CombatLevelExact(aggressive, defensive, spiritual, ranged);
    level
  }

  /** The two float branches of `CombatLevel` as one integer formula. */
  lemma CombatLevelExact(aggressive: int, defensive: int, spiritual: int, ranged: int)
    ensures var a, d, s, r := aggressive as real, defensive as real, spiritual as real, ranged as real;
      (if a < r * 1.5 then TruncReal(d / 4.0 + r * 0.375 + s) else TruncReal(a / 4.0 + d / 4.0 + s))
      == CombatFormula(aggressive, defensive, spiritual, ranged)
  {
    var a, d, s, r := aggressive as real, defensive as real, spiritual as real, ranged as real;
    if a < r * 1.5 {
      assert 2 * aggressive < 3 * ranged;
      assert d / 4.0 + r * 0.375 + s == (2 * defensive + 8 * spiritual + 3 * ranged) as real / 8.0;
      TruncEighths(2 * defensive + 8 * spiritual + 3 * ranged);
    } else {
      assert !(2 * aggressive < 3 * ranged);
      assert a / 4.0 + d / 4.0 + s == (2 * defensive + 8 * spiritual + 2 * aggressive) as real / 8.0;
      TruncEighths(2 * defensive + 8 * spiritual + 2 * aggressive);
    }
  }

  /** The integer combat formula does not decrease when any of its totals grows. */
  lemma CombatFormulaMonotone(a1: int, d1: int, s1: int, r1: int, a2: int, d2: int, s2: int, r2: int)
    requires a1 <= a2 && d1 <= d2 && s1 <= s2 && r1 <= r2
    ensures CombatFormula(a1, d1, s1, r1) <= CombatFormula(a2, d2, s2, r2)
  {
    var best1 := if 2 * a1 < 3 * r1 then 3 * r1 else 2 * a1;
    var best2 := if 2 * a2 < 3 * r2 then 3 * r2 else 2 * a2;
    QuotMonotone(2 * d1 + 8 * s1 + best1, 2 * d2 + 8 * s2 + best2, 8);
  }

  /** The combat level of a table of maximum levels. */
  function CombatOf(maximum: seq<int>): int
    requires |maximum| == SkillCount
  {
    CombatFormula(maximum[StatAttack] + maximum[StatStrength], maximum[StatDefense] + maximum[StatHits],
                  Quot(maximum[StatPrayer] + maximum[StatMagic], 8), maximum[StatRanged])
  }

  /** Raising any maximum level never lowers the combat level. */
  lemma CombatLevelMonotone(lower: seq<int>, higher: seq<int>)
    requires |lower| == |higher| == SkillCount
    requires forall i :: 0 <= i < SkillCount ==> lower[i] <= higher[i]
    ensures CombatOf(lower) <= CombatOf(higher)
  {
    QuotMonotone(lower[5] + lower[6], higher[5] + higher[6], 8);
    CombatFormulaMonotone(lower[0] + lower[2], lower[1] + lower[3], Quot(lower[5] + lower[6], 8), lower[4],
                          higher[0] + higher[2], higher[1] + higher[3], Quot(higher[5] + higher[6], 8), higher[4]);
  }

  /** An appearance table (`AppearanceTable`). */
  datatype AppearanceTable = AppearanceTable(
    head: int, body: int, legs: int, male: bool,
    headColor: int, bodyColor: int, legsColor: int, skinColor: int)

  /**
   * The fields of a player (`Player`, declared outside mob.go) that the modelled
   * packet handlers and the player registry use.
   */
  class Player {
    const mob: Mob
    const userBase37: bv64
    var connected: bool
    const equips: array<int>
    const skills: SkillTable
    var appearance: AppearanceTable
    var appearanceChanged: bool

    constructor (mob: Mob, userBase37: bv64, equips: array<int>, skills: SkillTable, appearance: AppearanceTable)
      ensures this.mob == mob && this.userBase37 == userBase37 && this.equips == equips && this.skills == skills
      ensures this.appearance == appearance && !connected && !appearanceChanged
    {
      this.mob := mob;
      this.userBase37 := userBase37;
      this.equips := equips;
      this.skills := skills;
      this.appearance := appearance;
      connected := false;
      appearanceChanged := false;
    }
  }
}
