/**
 * The object and boundary interaction handlers of package `packethandlers`
 * (pkg/server/packethandlers/scene_interactions.go): the door maps built at
 * start-up, the four handler tables, the handlers themselves (the prayer altar,
 * the ladders, the doors and the quest-hut door) and the two dispatchers that
 * run when a player arrives at the object it clicked.
 */
module Scene {
  import opened Wrappers
  import opened World

  /** A scenery object or boundary of the world: its definition id and its tile. */
  class GameObject {
    const id: int
    const x: int
    const y: int

    constructor (id: int, x: int, y: int)
      ensures this.id == id && this.x == x && this.y == y
    {
      this.id := id;
      this.x := x;
      this.y := y;
    }
  }

  /** A handler table key: Go keys the tables by an object id or by a command name. */
  datatype Key = ById(id: int) | ByCommand(command: string)

  /** The handlers registered at start-up. */
  datatype Handler = Recharge | ClimbUp | ClimbDown | OpenDoor | CloseDoor | OpenBoundary | CloseBoundary

  /** A handler argument: the object acted on, or a value of any other dynamic type. */
  datatype Arg = ObjectArg(obj: GameObject) | OtherArg

  /** What a handler or dispatcher does outside the player's own state. */
  datatype Effect =
    | StatUpdate(stat: int)             // the client is sent the level of `stat`
    | Message(text: string)             // the client is sent a chat message
    | PlaneUpdate                       // the client is sent its new plane
    | DefaultActionMessage              // the client is told nothing interesting happens
    | Replaced(obj: GameObject, newId: int) // `world.ReplaceObject`
    | EnteredDoor(obj: GameObject, dest: Tile) // the `EnterDoor` goroutine is started

  /**
   * The collaborators outside this file, passed in: `objectAt(x, y)` is
   * `world.GetObject`, `withinRange(from, to, r)` is `WithinRange`, `above` and
   * `below` are `Above` and `Below`, and `objectCommands(id)` and
   * `boundaryCommands(id)` are the first two commands of the object or boundary
   * definition `id` in the game database.
   */
  datatype Surroundings = Surroundings(
    objectAt: (int, int) -> GameObject?,
    withinRange: (Tile, Tile, int) -> bool,
    above: Tile -> Tile,
    below: Tile -> Tile,
    objectCommands: int -> (string, string),
    boundaryCommands: int -> (string, string))

  const AltarId: int := 19
  const QuestHutDoorId: int := 109
  const AltarMessage: string := "You recharge your prayer points at the altar."

  /** `m` pairs up its keys: every key maps to a key that maps back to it. */
  ghost predicate Involution(m: map<int, int>) {
    forall k :: k in m ==> m[k] in m && m[m[k]] == k
  }

  /**
   * The `init` loop `for k, v := range m { m[v] = k }`: `order` is the order in
   * which Go happens to visit the keys. Every entry gains its reverse entry, and
   * every entry added is the reverse of one of `m`.
   */
  method AddReverse(m: map<int, int>, order: seq<int>) returns (r: map<int, int>)
    requires forall i :: 0 <= i < |order| ==> order[i] in m
    requires forall k :: k in m ==> k in order
    requires forall k :: k in m ==> m[k] !in m
    requires forall j, k :: j in m && k in m && m[j] == m[k] ==> j == k
    ensures forall k :: k in m ==> k in r && r[k] == m[k] && m[k] in r && r[m[k]] == k
    ensures forall v :: v in r && v !in m ==> r[v] in m && m[r[v]] == v
    ensures Involution(r)
  {
    r := m;
    for n := 0 to |order|
      invariant forall k :: k in m ==> k in r && r[k] == m[k]
      invariant forall i :: 0 <= i < n ==> m[order[i]] in r && r[m[order[i]]] == order[i]
      invariant forall v :: v in r && v !in m ==> r[v] in m && m[r[v]] == v
    {
      var k := order[n];
      var v := r[k];
      r := r[v := k];
    }
    PairedIsInvolution(m, r);
  }

  /** A map holding an injective map and only reverse entries of it pairs up its keys. */
  lemma PairedIsInvolution(m: map<int, int>, r: map<int, int>)
    requires forall k :: k in m ==> k in r && r[k] == m[k] && m[k] in r && r[m[k]] == k
    requires forall v :: v in r && v !in m ==> r[v] in m && m[r[v]] == v
    ensures Involution(r)
  {
    forall k | k in r
      ensures r[k] in r && r[r[k]] == k
    {
      if k !in m {
        var j := r[k];
        assert j in m && m[j] == k;
      }
    }
  }

  /** The handler tables and the door maps, as `init` leaves them. */
  class ActionTables {
    const oDoors: map<int, int>
    const bDoors: map<int, int>
    const objectHandlers: map<Key, Handler>
    const object2Handlers: map<Key, Handler>
    const boundaryHandlers: map<Key, Handler>
    const boundary2Handlers: map<Key, Handler>

    /** `init`; `oOrder` and `bOrder` are the orders in which Go visits the two door maps. */
    constructor (oOrder: seq<int>, bOrder: seq<int>)
      requires forall i :: 0 <= i < |oOrder| ==> oOrder[i] in {59, 57, 63}
      requires forall k :: k in {59, 57, 63} ==> k in oOrder
      requires forall i :: 0 <= i < |bOrder| ==> bOrder[i] == 2
      requires 2 in bOrder
      ensures forall k :: k in oDoors <==> k == 57 || k == 58 || k == 59 || k == 60 || k == 63 || k == 64
      ensures oDoors[59] == 60 && oDoors[57] == 58 && oDoors[63] == 64
      ensures forall k :: k in bDoors <==> k == 1 || k == 2
      ensures bDoors[2] == 1
      ensures Involution(oDoors) && Involution(bDoors)
      ensures objectHandlers == map[ById(AltarId) := Recharge, ByCommand("climb-up") := ClimbUp,
                                    ByCommand("climb-down") := ClimbDown, ByCommand("open") := OpenDoor]
      ensures object2Handlers == map[ByCommand("close") := CloseDoor]
      ensures boundaryHandlers == map[ByCommand("open") := OpenBoundary]
      ensures boundary2Handlers == map[ByCommand("close") := CloseBoundary]
    {
      var opening := map[59 := 60, 57 := 58, 63 := 64];
      assert 59 in opening && 57 in opening && 63 in opening;
      var o := AddReverse(opening, oOrder);
      oDoors := o;
      var bOpening := map[2 := 1];
      assert 2 in bOpening;
      var b := AddReverse(bOpening, bOrder);
      bDoors := b;
      objectHandlers := map[ById(AltarId) := Recharge, ByCommand("climb-up") := ClimbUp,
                            ByCommand("climb-down") := ClimbDown, ByCommand("open") := OpenDoor];
      object2Handlers := map[ByCommand("close") := CloseDoor];
      boundaryHandlers := map[ByCommand("open") := OpenBoundary];
      boundary2Handlers := map[ByCommand("close") := CloseBoundary];
    }
  }

  /** The handler a dispatcher calls: the one for the id, else the one for the command, else none. */
  function Selected(handlers: map<Key, Handler>, id: int, command: string): (h: Option<Handler>)
    ensures ById(id) in handlers ==> h == Some(handlers[ById(id)])
    ensures ById(id) !in handlers && ByCommand(command) in handlers ==> h == Some(handlers[ByCommand(command)])
    ensures h == None <==> ById(id) !in handlers && ByCommand(command) !in handlers
    ensures h.Some? ==> h.value in handlers.Values
  {
    if ById(id) in handlers then Some(handlers[ById(id)])
    else if ByCommand(command) in handlers then Some(handlers[ByCommand(command)])
    else None
  }

  /** The quest-hut door leads to (161, 465), or one tile north of it when the player stands at or past that row. */
  function QuestHutDestination(y: int): (dest: Tile)
    ensures dest.x == 161 && 464 <= dest.y <= 465
    ensures dest.y == 464 <==> y >= 465
  {
    var dest := Tile(161, 465);
    if y >= dest.y then dest.(y := dest.y - 1) else dest
  }

  /** The door replacement a door handler makes, if its argument is an object with a partner id. */
  function Toggled(args: seq<Arg>, doors: map<int, int>): (effects: seq<Effect>)
    ensures |effects| <= 1
    ensures effects != [] <==> |args| > 0 && args[0].ObjectArg? && args[0].obj.id in doors
    ensures effects != [] ==> effects[0] == Replaced(args[0].obj, doors[args[0].obj.id])
  {
    if |args| > 0 && args[0].ObjectArg? && args[0].obj.id in doors then [Replaced(args[0].obj, doors[args[0].obj.id])]
    else []
  }

  /** Toggling a door of a paired map and then toggling the result gives the original id back. */
  lemma ToggleTwice(doors: map<int, int>, obj: GameObject, swapped: GameObject)
    requires Involution(doors) && obj.id in doors && swapped.id == doors[obj.id]
    ensures Toggled([ObjectArg(obj)], doors) == [Replaced(obj, swapped.id)]
    ensures Toggled([ObjectArg(swapped)], doors) == [Replaced(swapped, obj.id)]
  {
  }

  /** The tile a ladder handler takes the player to. */
  function Climbed(h: Handler, here: Tile, s: Surroundings): Tile
    requires h == ClimbUp || h == ClimbDown
  {
    if h == ClimbUp then s.above(here) else s.below(here)
  }

  /** What handler `h` sends and replaces, given the player's prayer levels and tile. */
  function Reaction(h: Handler, args: seq<Arg>, tables: ActionTables, prayer: int, maxPrayer: int, here: Tile, s: Surroundings)
    : (effects: seq<Effect>)
    ensures |args| == 0 ==> effects == []
  {
    if |args| == 0 then []
    else match h
      case Recharge => if prayer < maxPrayer then [StatUpdate(StatPrayer), Message(AltarMessage)] else []
      case ClimbUp => if Climbed(h, here, s) != here then [PlaneUpdate] else []
      case ClimbDown => if Climbed(h, here, s) != here then [PlaneUpdate] else []
      case OpenDoor => Toggled(args, tables.oDoors)
      case CloseDoor => Toggled(args, tables.oDoors)
      case OpenBoundary =>
        (if args[0].ObjectArg? && args[0].obj.id == QuestHutDoorId then [EnteredDoor(args[0].obj, QuestHutDestination(here.y))] else [])
        + Toggled(args, tables.bDoors)
      case CloseBoundary => Toggled(args, tables.bDoors)
  }

  /** The current prayer level after handler `h`, if one ran. */
  function PrayerAfter(h: Option<Handler>, args: seq<Arg>, prayer: int, maxPrayer: int): (level: int)
    ensures level == prayer || level == maxPrayer
    ensures level >= prayer
    ensures level != prayer ==> h == Some(Recharge) && |args| > 0
  {
    if h == Some(Recharge) && |args| > 0 && prayer < maxPrayer then maxPrayer else prayer
  }

  /** The player's tile after handler `h`, if one ran. */
  function TileAfter(h: Option<Handler>, args: seq<Arg>, here: Tile, s: Surroundings): (tile: Tile)
    ensures tile != here ==> (h == Some(ClimbUp) || h == Some(ClimbDown)) && |args| > 0
  {
    if h.Some? && (h.value == ClimbUp || h.value == ClimbDown) && |args| > 0 then Climbed(h.value, here, s) else here
  }

  /** Every handler called without arguments leaves everything as it was. */
  lemma NoArgumentsNoEffect(h: Handler, tables: ActionTables, prayer: int, maxPrayer: int, here: Tile, s: Surroundings)
    ensures Reaction(h, [], tables, prayer, maxPrayer, here, s) == []
    ensures PrayerAfter(Some(h), [], prayer, maxPrayer) == prayer
    ensures TileAfter(Some(h), [], here, s) == here
  {
  }

  /** The altar tops prayer up to its maximum, and only when it is below. */
  lemma AltarRecharges(args: seq<Arg>, prayer: int, maxPrayer: int)
    requires |args| > 0
    ensures prayer < maxPrayer ==> PrayerAfter(Some(Recharge), args, prayer, maxPrayer) == maxPrayer
    ensures prayer >= maxPrayer ==> PrayerAfter(Some(Recharge), args, prayer, maxPrayer) == prayer
  {
  }

  /** The altar handler (object id 19). */
  method RechargePrayer(player: Player, args: seq<Arg>) returns (effects: seq<Effect>)
    requires player.skills.Valid()
    modifies player.skills.current
    ensures |args| == 0 || old(player.skills.current[StatPrayer]) >= player.skills.maximum[StatPrayer] ==>
      effects == [] && player.skills.current[..] == old(player.skills.current[..])
    ensures |args| > 0 && old(player.skills.current[StatPrayer]) < player.skills.maximum[StatPrayer] ==>
      && effects == [StatUpdate(StatPrayer), Message(AltarMessage)]
      && player.skills.current[..] == old(player.skills.current[..])[StatPrayer := player.skills.maximum[StatPrayer]]
  {
    effects := [];
    if |args| <= 0 {
      return;
    }
    if player.skills.current[StatPrayer] < player.skills.maximum[StatPrayer] {
      player.skills.SetCur(StatPrayer, player.skills.maximum[StatPrayer]);
      effects := [StatUpdate(StatPrayer), Message(AltarMessage)];
    }
  }

  /** The `climb-up` and `climb-down` handlers: a move to another plane, when there is one. */
  method Climb(player: Player, args: seq<Arg>, up: bool, s: Surroundings, env: Env) returns (effects: seq<Effect>)
    modifies player.mob, player.mob.attrs
    ensures var here := Tile(old(player.mob.x), old(player.mob.y));
      var next := if up then s.above(here) else s.below(here);
      && (|args| == 0 || next == here ==>
        && effects == [] && player.mob.x == here.x && player.mob.y == here.y
        && player.mob.attrs.vars == old(player.mob.attrs.vars))
      && (|args| > 0 && next != here ==>
        && effects == [PlaneUpdate] && player.mob.x == next.x && player.mob.y == next.y
        && player.mob.attrs.vars == old(player.mob.attrs.vars)["remove" := BoolVal(true)])
    ensures player.mob.index == old(player.mob.index)
  {
    effects := [];
    if |args| <= 0 {
      return;
    }
    var here := Tile(player.mob.x, player.mob.y);
    var next := if up then s.above(here) else s.below(here);
    if next != here {
      player.mob.Teleport(next.x, next.y, env);
      effects := [PlaneUpdate];
    }
  }

  /** The door handlers: an object whose id has a partner in `doors` is replaced by the partner. */
  method Toggle(args: seq<Arg>, doors: map<int, int>) returns (effects: seq<Effect>)
    ensures effects == Toggled(args, doors)
  {
    effects := [];
    if |args| <= 0 {
      return;
    }
    if !args[0].ObjectArg? {
      return;
    }
    var target := args[0].obj;
    if target.id in doors {
      effects := [Replaced(target, doors[target.id])];
    }
  }

  /** The boundary `open` handler: the quest-hut door lets the player through; a paired door is swapped. */
  method OpenBoundaryDoor(player: Player, args: seq<Arg>, bDoors: map<int, int>) returns (effects: seq<Effect>)
    ensures |args| == 0 ==> effects == []
    ensures |args| > 0 && args[0].ObjectArg? && args[0].obj.id == QuestHutDoorId ==>
      effects == [EnteredDoor(args[0].obj, QuestHutDestination(player.mob.y))] + Toggled(args, bDoors)
    ensures |args| > 0 && !(args[0].ObjectArg? && args[0].obj.id == QuestHutDoorId) ==>
      effects == Toggled(args, bDoors)
  {
    effects := [];
    if |args| <= 0 {
      return;
    }
    if !args[0].ObjectArg? {
      return;
    }
    var target := args[0].obj;
    if target.id == QuestHutDoorId {
      var dest := QuestHutDestination(player.mob.y);
      effects := [EnteredDoor(target, dest)];
    }
    if target.id in bDoors {
      effects := effects + [Replaced(target, bDoors[target.id])];
    }
  }

  /** Calls handler `h`. */
  method Invoke(h: Handler, player: Player, args: seq<Arg>, tables: ActionTables, s: Surroundings, env: Env)
    returns (effects: seq<Effect>)
    requires player.skills.Valid()
    modifies player.mob, player.mob.attrs, player.skills.current
    ensures var here := Tile(old(player.mob.x), old(player.mob.y));
      && effects == Reaction(h, args, tables, old(player.skills.current[StatPrayer]), player.skills.maximum[StatPrayer], here, s)
      && player.skills.current[..] == old(player.skills.current[..])
           [StatPrayer := PrayerAfter(Some(h), args, old(player.skills.current[StatPrayer]), player.skills.maximum[StatPrayer])]
      && Tile(player.mob.x, player.mob.y) == TileAfter(Some(h), args, here, s)
      && (TileAfter(Some(h), args, here, s) == here ==> player.mob.attrs.vars == old(player.mob.attrs.vars))
      && (TileAfter(Some(h), args, here, s) != here ==>
            player.mob.attrs.vars == old(player.mob.attrs.vars)["remove" := BoolVal(true)])
    ensures player.mob.index == old(player.mob.index)
  {
    match h {
      case Recharge => effects := RechargePrayer(player, args);
      case ClimbUp => effects := Climb(player, args, true, s, env);
      case ClimbDown => effects := Climb(player, args, false, s, env);
      case OpenDoor => effects := Toggle(args, tables.oDoors);
      case CloseDoor => effects := Toggle(args, tables.oDoors);
      case OpenBoundary => effects := OpenBoundaryDoor(player, args, tables.bDoors);
      case CloseBoundary => effects := Toggle(args, tables.bDoors);
    }
  }

  /** The player is idle, the object is still the one at its tile, and the player stands next to it. */
  predicate Ready(player: Player, target: GameObject, s: Surroundings)
    reads player.mob, player.mob.attrs
  {
    && player.mob.State() == MSIdle
    && s.objectAt(target.x, target.y) == target
    && s.withinRange(Tile(player.mob.x, player.mob.y), Tile(target.x, target.y), 1)
  }

  /**
   * The body shared by `objectAction` and `boundaryAction` once the table and
   * command are chosen: nothing unless `Ready`; then the selected handler is
   * called with the object, or the default message is sent when there is none.
   */
  method Dispatch(handlers: map<Key, Handler>, command: string, player: Player, target: GameObject,
                  tables: ActionTables, s: Surroundings, env: Env)
    returns (invoked: Option<Handler>, effects: seq<Effect>)
    requires player.skills.Valid()
    modifies player.mob, player.mob.attrs, player.skills.current
    ensures invoked == (if old(Ready(player, target, s)) then Selected(handlers, target.id, command) else None)
    ensures !old(Ready(player, target, s)) ==> effects == []
    ensures old(Ready(player, target, s)) && invoked == None ==> effects == [DefaultActionMessage]
    ensures var here := Tile(old(player.mob.x), old(player.mob.y));
      && (invoked.Some? ==>
            effects == Reaction(invoked.value, [ObjectArg(target)], tables, old(player.skills.current[StatPrayer]),
                                player.skills.maximum[StatPrayer], here, s))
      && player.skills.current[..] == old(player.skills.current[..])
           [StatPrayer := PrayerAfter(invoked, [ObjectArg(target)], old(player.skills.current[StatPrayer]), player.skills.maximum[StatPrayer])]
      && Tile(player.mob.x, player.mob.y) == TileAfter(invoked, [ObjectArg(target)], here, s)
      && (TileAfter(invoked, [ObjectArg(target)], here, s) == here ==> player.mob.attrs.vars == old(player.mob.attrs.vars))
      && (TileAfter(invoked, [ObjectArg(target)], here, s) != here ==>
            player.mob.attrs.vars == old(player.mob.attrs.vars)["remove" := BoolVal(true)])
    ensures player.mob.index == old(player.mob.index)
  {
    if !Ready(player, target, s) {
      return None, [];
    }
    invoked := Selected(handlers, target.id, command);
    if invoked.Some? {
      effects := Invoke(invoked.value, player, [ObjectArg(target)], tables, s, env);
    } else {
      effects := [DefaultActionMessage];
    }
  }

  /** `objectAction`: a right click uses the second table and the object's second command. */
  method ObjectAction(player: Player, target: GameObject, rightClick: bool, tables: ActionTables, s: Surroundings, env: Env)
    returns (invoked: Option<Handler>, effects: seq<Effect>)
    requires player.skills.Valid()
    modifies player.mob, player.mob.attrs, player.skills.current
    ensures var commands := s.objectCommands(target.id);
      var handlers := if rightClick then tables.object2Handlers else tables.objectHandlers;
      invoked == (if old(Ready(player, target, s)) then Selected(handlers, target.id, if rightClick then commands.1 else commands.0) else None)
    ensures !old(Ready(player, target, s)) ==> effects == []
    ensures old(Ready(player, target, s)) && invoked == None ==> effects == [DefaultActionMessage]
    ensures var here := Tile(old(player.mob.x), old(player.mob.y));
      && (invoked.Some? ==>
            effects == Reaction(invoked.value, [ObjectArg(target)], tables, old(player.skills.current[StatPrayer]),
                                player.skills.maximum[StatPrayer], here, s))
      && player.skills.current[..] == old(player.skills.current[..])
           [StatPrayer := PrayerAfter(invoked, [ObjectArg(target)], old(player.skills.current[StatPrayer]), player.skills.maximum[StatPrayer])]
      && Tile(player.mob.x, player.mob.y) == TileAfter(invoked, [ObjectArg(target)], here, s)
      && (TileAfter(invoked, [ObjectArg(target)], here, s) == here ==> player.mob.attrs.vars == old(player.mob.attrs.vars))
      && (TileAfter(invoked, [ObjectArg(target)], here, s) != here ==>
            player.mob.attrs.vars == old(player.mob.attrs.vars)["remove" := BoolVal(true)])
    ensures player.mob.index == old(player.mob.index)
  {
    var handlers := tables.objectHandlers;
    var command := s.objectCommands(target.id).0;
    if rightClick {
      handlers := tables.object2Handlers;
      command := s.objectCommands(target.id).1;
    }
    invoked, effects := Dispatch(handlers, command, player, target, tables, s, env);
  }

  /** `boundaryAction`: as `objectAction`, over the boundary tables and boundary definitions. */
  method BoundaryAction(player: Player, target: GameObject, rightClick: bool, tables: ActionTables, s: Surroundings, env: Env)
    returns (invoked: Option<Handler>, effects: seq<Effect>)
    requires player.skills.Valid()
    modifies player.mob, player.mob.attrs, player.skills.current
    ensures var commands := s.boundaryCommands(target.id);
      var handlers := if rightClick then tables.boundary2Handlers else tables.boundaryHandlers;
      invoked == (if old(Ready(player, target, s)) then Selected(handlers, target.id, if rightClick then commands.1 else commands.0) else None)
    ensures !old(Ready(player, target, s)) ==> effects == []
    ensures old(Ready(player, target, s)) && invoked == None ==> effects == [DefaultActionMessage]
    ensures var here := Tile(old(player.mob.x), old(player.mob.y));
      && (invoked.Some? ==>
            effects == Reaction(invoked.value, [ObjectArg(target)], tables, old(player.skills.current[StatPrayer]),
                                player.skills.maximum[StatPrayer], here, s))
      && player.skills.current[..] == old(player.skills.current[..])
           [StatPrayer := PrayerAfter(invoked, [ObjectArg(target)], old(player.skills.current[StatPrayer]), player.skills.maximum[StatPrayer])]
      && Tile(player.mob.x, player.mob.y) == TileAfter(invoked, [ObjectArg(target)], here, s)
      && (TileAfter(invoked, [ObjectArg(target)], here, s) == here ==> player.mob.attrs.vars == old(player.mob.attrs.vars))
      && (TileAfter(invoked, [ObjectArg(target)], here, s) != here ==>
            player.mob.attrs.vars == old(player.mob.attrs.vars)["remove" := BoolVal(true)])
    ensures player.mob.index == old(player.mob.index)
  {
    var handlers := tables.boundaryHandlers;
    var command := s.boundaryCommands(target.id).0;
    if rightClick {
      handlers := tables.boundary2Handlers;
      command := s.boundaryCommands(target.id).1;
    }
    invoked, effects := Dispatch(handlers, command, player, target, tables, s, env);
  }
}
