/**
 * The per-client tick of package `server` (pkg/server/client.go): the view
 * update `UpdatePositions`, which works out which players and objects enter
 * and leave a player's view, the flag reset after a tick, and the login
 * response with its initial skill levels. Packets are opaque; the packet
 * builders and the registry of connected clients are parameters.
 */
module Server {
  import opened Wrappers
  import opened Entity
  import opened Isaac

  /** An outgoing packet; its encoding belongs to the packet builders, which are not modelled. */
  datatype Packet = Packet(opcode: int, payload: seq<int>)

  /** View distances, in tiles of Chebyshev distance. */
  const PlayerViewDistance: int := 15
  const ObjectViewDistance: int := 20

  /**
   * What the view update and the login response consult outside this file:
   * the death spot, the registry of connected clients (client index to that
   * client's player), the server's client count and the packet builders,
   * which return `None` where the source's builders return nil.
   */
  datatype Env = Env(
    deathX: int,
    deathY: int,
    clients: map<int, Player>,
    clientCount: int,
    playerPositions: (Player, seq<Player>, seq<Player>) -> Option<Packet>,
    playerAppearances: (Player, seq<Player>) -> Option<Packet>,
    objectLocations: (Player, seq<Object>, seq<Object>) -> Option<Packet>,
    loginResponse: int -> Packet,
    loginPackets: (Player, int) -> seq<Packet>)

  /** `Location.LongestDelta`: the Chebyshev distance between two tiles. */
  function LongestDelta(x1: int, y1: int, x2: int, y2: int): (d: int)
    ensures 0 <= d
    ensures x1 - x2 <= d && x2 - x1 <= d && y1 - y2 <= d && y2 - y1 <= d
    ensures d == x1 - x2 || d == x2 - x1 || d == y1 - y2 || d == y2 - y1
  {
    var dx := if x1 < x2 then x2 - x1 else x1 - x2;
    var dy := if y1 < y2 then y2 - y1 else y1 - y2;
    if dx < dy then dy else dx
  }

  /** A player not yet known to `me`, in view, and not the observer itself. */
  ghost predicate PlayerEnters(me: Player, self: int, p: Player)
    reads me`localPlayers
  {
    p.index != self && LongestDelta(me.x, me.y, p.x, p.y) <= PlayerViewDistance && p !in me.localPlayers
  }

  /** A player known to `me` that is now out of view, other than the observer itself. */
  ghost predicate PlayerLeaves(me: Player, self: int, p: Player)
    reads me`localPlayers
  {
    p.index != self && LongestDelta(me.x, me.y, p.x, p.y) > PlayerViewDistance && p in me.localPlayers
  }

  ghost predicate ObjectEnters(me: Player, o: Object)
    reads me`localObjects
  {
    LongestDelta(me.x, me.y, o.x, o.y) <= ObjectViewDistance && o !in me.localObjects
  }

  ghost predicate ObjectLeaves(me: Player, o: Object)
    reads me`localObjects
  {
    LongestDelta(me.x, me.y, o.x, o.y) > ObjectViewDistance && o in me.localObjects
  }

  /** The players of the scanned regions that enter the view, in scan order. */
  ghost function EnteringPlayers(me: Player, self: int, ps: seq<Player>): seq<Player>
    reads me`localPlayers
  {
    if ps == [] then []
    else
      var p := ps[|ps| - 1];
      EnteringPlayers(me, self, ps[..|ps| - 1]) + if PlayerEnters(me, self, p) then [p] else []
  }

  /** The players of the scanned regions that leave the view, in scan order. */
  ghost function LeavingPlayers(me: Player, self: int, ps: seq<Player>): seq<Player>
    reads me`localPlayers
  {
    if ps == [] then []
    else
      var p := ps[|ps| - 1];
      LeavingPlayers(me, self, ps[..|ps| - 1]) + if PlayerLeaves(me, self, p) then [p] else []
  }

  ghost function EnteringObjects(me: Player, os: seq<Object>): seq<Object>
    reads me`localObjects
  {
    if os == [] then []
    else
      var o := os[|os| - 1];
      EnteringObjects(me, os[..|os| - 1]) + if ObjectEnters(me, o) then [o] else []
  }

  ghost function LeavingObjects(me: Player, os: seq<Object>): seq<Object>
    reads me`localObjects
  {
    if os == [] then []
    else
      var o := os[|os| - 1];
      LeavingObjects(me, os[..|os| - 1]) + if ObjectLeaves(me, o) then [o] else []
  }

  /** The players of a list of regions, region by region. */
  ghost function AllPlayers(rs: seq<Region>): seq<Player>
    reads (set r | r in rs)`players
  {
    if rs == [] then [] else AllPlayers(rs[..|rs| - 1]) + rs[|rs| - 1].players
  }

  /** The objects of a list of regions, region by region. */
  ghost function AllObjects(rs: seq<Region>): seq<Object>
    reads (set r | r in rs)`objects
  {
    if rs == [] then [] else AllObjects(rs[..|rs| - 1]) + rs[|rs| - 1].objects
  }

  /** The players of the clients registered under the given indexes, skipping indexes with no client. */
  function Resolve(indexes: seq<int>, clients: map<int, Player>): seq<Player> {
    if indexes == [] then []
    else
      var i := indexes[|indexes| - 1];
      Resolve(indexes[..|indexes| - 1], clients) + if i in clients then [clients[i]] else []
  }

  /** The appearance loop of `UpdatePositions`: the players of the registered clients listed, in order. */
  method ResolveAppearances(indexes: seq<int>, clients: map<int, Player>) returns (players: seq<Player>)
    ensures players == Resolve(indexes, clients)
  {
    players := [];
    var a := 0;
    while a < |indexes|
      invariant 0 <= a <= |indexes|
      invariant players == Resolve(indexes[..a], clients)
    {
      var index := indexes[a];
      assert indexes[..a + 1][..a] == indexes[..a];
      if index in clients {
        players := players + [clients[index]];
      }
      a := a + 1;
    }
    assert indexes[..|indexes|] == indexes;
  }

  /** Scanning one more player extends each list by that player when its predicate holds. */
  lemma PlayerStep(me: Player, self: int, ps: seq<Player>, p: Player)
    ensures EnteringPlayers(me, self, ps + [p]) == EnteringPlayers(me, self, ps) + if PlayerEnters(me, self, p) then [p] else []
    ensures LeavingPlayers(me, self, ps + [p]) == LeavingPlayers(me, self, ps) + if PlayerLeaves(me, self, p) then [p] else []
  {
    assert (ps + [p])[..|ps|] == ps;
  }

  /** Scanning one more object extends each list by that object when its predicate holds. */
  lemma ObjectStep(me: Player, os: seq<Object>, o: Object)
    ensures EnteringObjects(me, os + [o]) == EnteringObjects(me, os) + if ObjectEnters(me, o) then [o] else []
    ensures LeavingObjects(me, os + [o]) == LeavingObjects(me, os) + if ObjectLeaves(me, o) then [o] else []
  {
    assert (os + [o])[..|os|] == os;
  }

  /** The packet, if the builder produced one. */
  function Queued(p: Option<Packet>): seq<Packet> {
    if p.Some? then [p.value] else []
  }

  /** A player enters the view exactly when it was scanned and `PlayerEnters` holds. */
  lemma {:induction false} EnteringPlayersMembers(me: Player, self: int, ps: seq<Player>, p: Player)
    ensures p in EnteringPlayers(me, self, ps) <==> p in ps && PlayerEnters(me, self, p)
  {
    if ps != [] {
      EnteringPlayersMembers(me, self, ps[..|ps| - 1], p);
      assert ps == ps[..|ps| - 1] + [ps[|ps| - 1]];
    }
  }

  /** A player leaves the view exactly when it was scanned and `PlayerLeaves` holds. */
  lemma {:induction false} LeavingPlayersMembers(me: Player, self: int, ps: seq<Player>, p: Player)
    ensures p in LeavingPlayers(me, self, ps) <==> p in ps && PlayerLeaves(me, self, p)
  {
    if ps != [] {
      LeavingPlayersMembers(me, self, ps[..|ps| - 1], p);
      assert ps == ps[..|ps| - 1] + [ps[|ps| - 1]];
    }
  }

  /** An object enters the view exactly when it was scanned and `ObjectEnters` holds. */
  lemma {:induction false} EnteringObjectsMembers(me: Player, os: seq<Object>, o: Object)
    ensures o in EnteringObjects(me, os) <==> o in os && ObjectEnters(me, o)
  {
    if os != [] {
      EnteringObjectsMembers(me, os[..|os| - 1], o);
      assert os == os[..|os| - 1] + [os[|os| - 1]];
    }
  }

  /** An object leaves the view exactly when it was scanned and `ObjectLeaves` holds. */
  lemma {:induction false} LeavingObjectsMembers(me: Player, os: seq<Object>, o: Object)
    ensures o in LeavingObjects(me, os) <==> o in os && ObjectLeaves(me, o)
  {
    if os != [] {
      LeavingObjectsMembers(me, os[..|os| - 1], o);
      assert os == os[..|os| - 1] + [os[|os| - 1]];
    }
  }

  /**
   * Entering and leaving players are disjoint and never the observer itself;
   * entering players were not known, leaving players were.
   */
  lemma PlayerDiff(me: Player, self: int, ps: seq<Player>)
    ensures forall p :: p in EnteringPlayers(me, self, ps) ==> p !in LeavingPlayers(me, self, ps)
    ensures forall p :: p in EnteringPlayers(me, self, ps) ==> p.index != self && p !in me.localPlayers
    ensures forall p :: p in LeavingPlayers(me, self, ps) ==> p.index != self && p in me.localPlayers
  {
    forall p | p in EnteringPlayers(me, self, ps)
      ensures p !in LeavingPlayers(me, self, ps) && p.index != self && p !in me.localPlayers
    {
      EnteringPlayersMembers(me, self, ps, p);
      LeavingPlayersMembers(me, self, ps, p);
    }
    forall p | p in LeavingPlayers(me, self, ps)
      ensures p.index != self && p in me.localPlayers
    {
      LeavingPlayersMembers(me, self, ps, p);
    }
  }

  /** Entering and leaving objects are disjoint; entering objects were not known, leaving objects were. */
  lemma ObjectDiff(me: Player, os: seq<Object>)
    ensures forall o :: o in EnteringObjects(me, os) ==> o !in LeavingObjects(me, os) && o !in me.localObjects
    ensures forall o :: o in LeavingObjects(me, os) ==> o in me.localObjects
  {
    forall o | o in EnteringObjects(me, os)
      ensures o !in LeavingObjects(me, os) && o !in me.localObjects
    {
      EnteringObjectsMembers(me, os, o);
      LeavingObjectsMembers(me, os, o);
    }
    forall o | o in LeavingObjects(me, os)
      ensures o in me.localObjects
    {
      LeavingObjectsMembers(me, os, o);
    }
  }

  /** A resolved player is the player of a registered client whose index was listed. */
  lemma {:induction false} ResolveMembers(indexes: seq<int>, clients: map<int, Player>, p: Player)
    ensures p in Resolve(indexes, clients) <==> exists k :: 0 <= k < |indexes| && indexes[k] in clients && clients[indexes[k]] == p
  {
    if indexes != [] {
      var n := |indexes| - 1;
      var init := indexes[..n];
      ResolveMembers(init, clients, p);
      if p in Resolve(indexes, clients) {
        if p in Resolve(init, clients) {
          var k :| 0 <= k < |init| && init[k] in clients && clients[init[k]] == p;
          assert indexes[k] == init[k];
        } else {
          assert indexes[n] in clients && clients[indexes[n]] == p;
        }
      }
      if exists k :: 0 <= k < |indexes| && indexes[k] in clients && clients[indexes[k]] == p {
        var k :| 0 <= k < |indexes| && indexes[k] in clients && clients[indexes[k]] == p;
        if k < n {
          assert init[k] == indexes[k];
        }
      }
    }
  }

  /** The player's per-tick flags are the given ones. */
  predicate Unflagged(p: Player, removing: bool, hasMoved: bool, appearanceChanged: bool, hasSelf: bool)
    reads p
  {
    p.removing == removing && p.hasMoved == hasMoved && p.appearanceChanged == appearanceChanged && p.hasSelf == hasSelf
  }

  /** A connected client: its index, its player and the packets queued for it. */
  class Client {
    const index: int
    const player: Player
    var outgoing: seq<Packet>
    /** Set when the client is told to disconnect. */
    var killed: bool
    /** The session seed words the server handed out (32-bit words). */
    var isaacSeed: seq<bv32>

    constructor (index: int, player: Player)
      ensures this.index == index && this.player == player && outgoing == [] && !killed
      ensures isaacSeed == [0, 0]
    {
      this.index := index;
      this.player := player;
      outgoing := [];
      killed := false;
      isaacSeed := [0, 0];
    }

    /**
     * `SeedISAAC`: a client seed whose words 2 and 3 are not the session seed's
     * is refused and nothing changes. Otherwise words 0 and 1 of the session
     * seed become the client's, the seed is expanded by 63 passes of the append
     * loop, the decoding stream is seeded with the expansion and the encoding
     * stream with the expansion raised by 50.
     */
    method SeedISAAC(seed: seq<bv32>) returns (r: Option<IsaacSeed>)
      requires |seed| >= 4 && |isaacSeed| >= 4
      modifies this
      ensures seed[2] != old(isaacSeed[2]) || seed[3] != old(isaacSeed[3]) ==> r == None && isaacSeed == old(isaacSeed)
      ensures seed[2] == old(isaacSeed[2]) && seed[3] == old(isaacSeed[3]) ==>
        && isaacSeed == seed[..2] + old(isaacSeed[2..])
        && r == Some(IsaacSeed(Shifted(Expansion(seed, 63)), Expansion(seed, 63)))
      ensures outgoing == old(outgoing) && killed == old(killed)
    {
      if seed[2] != isaacSeed[2] || seed[3] != isaacSeed[3] {
        return None;
      }
      var stored := isaacSeed;
      for i := 0 to 2
        invariant stored == seed[..i] + old(isaacSeed[i..])
      {
        stored := stored[i := seed[i]];
      }
      isaacSeed := stored;
      var decoder := ExpandSeed(seed);
      var encoder := AddOffset(decoder);
      return Some(IsaacSeed(encoder, decoder));
    }

    /** `ResetUpdateFlags`: after a tick the player is neither removing, moving nor changing appearance, and has itself in view. */
    method ResetUpdateFlags()
      modifies player
      ensures !player.removing && !player.hasMoved && !player.appearanceChanged && player.hasSelf
      ensures player.connected == old(player.connected) && player.localPlayers == old(player.localPlayers)
      ensures player.localObjects == old(player.localObjects) && player.appearances == old(player.appearances)
    {
      player.removing := false;
      player.hasMoved := false;
      player.appearanceChanged := false;
      player.hasSelf := true;
    }

    /**
     * `UpdatePositions`: unless the player is at the death spot or not connected,
     * scans the players and objects of the four surrounding regions, queues the
     * position packet (entering and leaving players), then the appearance packet
     * (players of the listed appearance indexes, then the entering players), then
     * the object packet (entering and leaving objects), each only when its builder
     * produced one, and empties the appearance list. The known-player and
     * known-object lists are not updated here.
     */
    method UpdatePositions(grid: Grid, env: Env) returns (ghost regions: seq<Region>, ghost ps: seq<Player>, ghost os: seq<Object>)
      requires grid.Valid()
      modifies grid.cells, this, player
      ensures player.connected == old(player.connected)
      ensures player.localPlayers == old(player.localPlayers) && player.localObjects == old(player.localObjects)
      ensures Unflagged(player, old(player.removing), old(player.hasMoved), old(player.appearanceChanged), old(player.hasSelf))
      ensures killed == old(killed) && isaacSeed == old(isaacSeed)
      ensures (player.x == env.deathX && player.y == env.deathY) || !player.connected ==>
        && outgoing == old(outgoing) && player.appearances == old(player.appearances)
        && forall i, j :: 0 <= i < HorizontalPlanes && 0 <= j < VerticalPlanes ==> grid.cells[i, j] == old(grid.cells[i, j])
      ensures !((player.x == env.deathX && player.y == env.deathY) || !player.connected) ==>
        && |regions| == 4
        && (forall k :: 0 <= k < 4 ==> grid.Serves(SurroundingCells(player.x, player.y)[k], regions[k]))
        && (var cs := SurroundingCells(player.x, player.y);
            forall k :: 0 <= k < 4 && InGrid(cs[k]) && old(grid.cells[cs[k].col, cs[k].row]) != null ==>
              regions[k] == old(grid.cells[cs[k].col, cs[k].row]))
        && (var cs := SurroundingCells(player.x, player.y);
            forall k :: 0 <= k < 4 && (!InGrid(cs[k]) || old(grid.cells[cs[k].col, cs[k].row]) == null) ==>
              fresh(regions[k]) && regions[k].players == [] && regions[k].objects == [])
        && (forall i, j :: 0 <= i < HorizontalPlanes && 0 <= j < VerticalPlanes && Cell(i, j) !in SurroundingCells(player.x, player.y) ==>
              grid.cells[i, j] == old(grid.cells[i, j]))
        && ps == AllPlayers(regions) && os == AllObjects(regions)
        && player.appearances == []
        && outgoing == old(outgoing)
          + Queued(env.playerPositions(player, EnteringPlayers(player, index, ps), LeavingPlayers(player, index, ps)))
          + Queued(env.playerAppearances(player, Resolve(old(player.appearances), env.clients) + EnteringPlayers(player, index, ps)))
          + Queued(env.objectLocations(player, EnteringObjects(player, os), LeavingObjects(player, os)))
    {
      regions, ps, os := [], [], [];
      if (player.x == env.deathX && player.y == env.deathY) || !player.connected {
        return;
      }
      var rs := grid.SurroundingRegions(player.x, player.y);
      regions, ps, os := rs, AllPlayers(rs), AllObjects(rs);
      label scanned:
      SendViewUpdates(rs, ps, os, env);
      assert forall k :: 0 <= k < 4 ==> rs[k].players == old@scanned(rs[k].players) && rs[k].objects == old@scanned(rs[k].objects);
    }

    /**
     * The part of `UpdatePositions` after the surrounding regions are found;
     * `ps` and `os` name the players and the objects of those regions.
     */
    method SendViewUpdates(rs: seq<Region>, ghost ps: seq<Player>, ghost os: seq<Object>, env: Env)
      requires ps == AllPlayers(rs) && os == AllObjects(rs)
      modifies this, player
      ensures player.connected == old(player.connected)
      ensures Unflagged(player, old(player.removing), old(player.hasMoved), old(player.appearanceChanged), old(player.hasSelf))
      ensures killed == old(killed) && isaacSeed == old(isaacSeed)
      ensures player.localPlayers == old(player.localPlayers) && player.localObjects == old(player.localObjects)
      ensures player.appearances == []
      ensures outgoing == old(outgoing)
          + Queued(env.playerPositions(player, EnteringPlayers(player, index, ps), LeavingPlayers(player, index, ps)))
          + Queued(env.playerAppearances(player, Resolve(old(player.appearances), env.clients) + EnteringPlayers(player, index, ps)))
          + Queued(env.objectLocations(player, EnteringObjects(player, os), LeavingObjects(player, os)))
    {
      var localPlayers, removingPlayers, localObjects, removingObjects := ScanRegions(rs);
      var localAppearances := ResolveAppearances(player.appearances, env.clients);
      player.appearances := [];
      SendViewPackets(localPlayers, removingPlayers, localAppearances + localPlayers, localObjects, removingObjects, env);
    }

    /** Queues the position, appearance and object packets, in that order, each only when built. */
    method SendViewPackets(localPlayers: seq<Player>, removingPlayers: seq<Player>, localAppearances: seq<Player>,
                           localObjects: seq<Object>, removingObjects: seq<Object>, env: Env)
      modifies this
      ensures outgoing == old(outgoing)
          + Queued(env.playerPositions(player, localPlayers, removingPlayers))
          + Queued(env.playerAppearances(player, localAppearances))
          + Queued(env.objectLocations(player, localObjects, removingObjects))
      ensures killed == old(killed) && isaacSeed == old(isaacSeed)
    {
      Send(env.playerPositions(player, localPlayers, removingPlayers));
      Send(env.playerAppearances(player, localAppearances));
      Send(env.objectLocations(player, localObjects, removingObjects));
    }

    /** Queues a built packet; a nil packet is not queued. */
    method Send(packet: Option<Packet>)
      modifies this
      ensures outgoing == old(outgoing) + Queued(packet) && killed == old(killed) && isaacSeed == old(isaacSeed)
    {
      if packet.Some? {
        outgoing := outgoing + [packet.value];
      }
    }

    /** The region loop of `UpdatePositions`: the players then the objects of each region in turn. */
    method ScanRegions(rs: seq<Region>)
      returns (localPlayers: seq<Player>, removingPlayers: seq<Player>, localObjects: seq<Object>, removingObjects: seq<Object>)
      ensures localPlayers == EnteringPlayers(player, index, AllPlayers(rs))
      ensures removingPlayers == LeavingPlayers(player, index, AllPlayers(rs))
      ensures localObjects == EnteringObjects(player, AllObjects(rs))
      ensures removingObjects == LeavingObjects(player, AllObjects(rs))
    {
      localPlayers, removingPlayers := [], [];
      localObjects, removingObjects := [], [];
      var k := 0;
      while k < |rs|
        invariant 0 <= k <= |rs|
        invariant localPlayers == EnteringPlayers(player, index, AllPlayers(rs[..k]))
        invariant removingPlayers == LeavingPlayers(player, index, AllPlayers(rs[..k]))
        invariant localObjects == EnteringObjects(player, AllObjects(rs[..k]))
        invariant removingObjects == LeavingObjects(player, AllObjects(rs[..k]))
      {
        assert rs[..k + 1][..k] == rs[..k];
        localPlayers, removingPlayers, localObjects, removingObjects :=
          ScanRegion(rs[k], AllPlayers(rs[..k]), AllObjects(rs[..k]), localPlayers, removingPlayers, localObjects, removingObjects);
        k := k + 1;
      }
      assert rs[..|rs|] == rs;
    }

    /** One region of the region loop: its players, then its objects, extend the four lists. */
    method ScanRegion(r: Region, ghost seenPlayers: seq<Player>, ghost seenObjects: seq<Object>,
                      entering: seq<Player>, leaving: seq<Player>, enteringObjects: seq<Object>, leavingObjects: seq<Object>)
      returns (localPlayers: seq<Player>, removingPlayers: seq<Player>, localObjects: seq<Object>, removingObjects: seq<Object>)
      requires entering == EnteringPlayers(player, index, seenPlayers) && leaving == LeavingPlayers(player, index, seenPlayers)
      requires enteringObjects == EnteringObjects(player, seenObjects) && leavingObjects == LeavingObjects(player, seenObjects)
      ensures localPlayers == EnteringPlayers(player, index, seenPlayers + r.players)
      ensures removingPlayers == LeavingPlayers(player, index, seenPlayers + r.players)
      ensures localObjects == EnteringObjects(player, seenObjects + r.objects)
      ensures removingObjects == LeavingObjects(player, seenObjects + r.objects)
    {
      localPlayers, removingPlayers := ScanPlayers(r.players, seenPlayers, entering, leaving);
      localObjects, removingObjects := ScanObjects(r.objects, seenObjects, enteringObjects, leavingObjects);
    }

    /** The player loop of one region. */
    method ScanPlayers(ps: seq<Player>, ghost seen: seq<Player>, entering: seq<Player>, leaving: seq<Player>)
      returns (localPlayers: seq<Player>, removingPlayers: seq<Player>)
      requires entering == EnteringPlayers(player, index, seen) && leaving == LeavingPlayers(player, index, seen)
      ensures localPlayers == EnteringPlayers(player, index, seen + ps)
      ensures removingPlayers == LeavingPlayers(player, index, seen + ps)
    {
      localPlayers, removingPlayers := entering, leaving;
      assert seen + ps[..0] == seen;
      var i := 0;
      while i < |ps|
        invariant 0 <= i <= |ps|
        invariant localPlayers == EnteringPlayers(player, index, seen + ps[..i])
        invariant removingPlayers == LeavingPlayers(player, index, seen + ps[..i])
      {
        var p := ps[i];
        assert seen + ps[..i + 1] == (seen + ps[..i]) + [p];
        PlayerStep(player, index, seen + ps[..i], p);
        if p.index != index {
          if LongestDelta(player.x, player.y, p.x, p.y) <= PlayerViewDistance {
            if p !in player.localPlayers {
              localPlayers := localPlayers + [p];
            }
          } else {
            if p in player.localPlayers {
              removingPlayers := removingPlayers + [p];
            }
          }
        }
        i := i + 1;
      }
      assert ps[..|ps|] == ps;
    }

    /** The object loop of one region. */
    method ScanObjects(os: seq<Object>, ghost seen: seq<Object>, entering: seq<Object>, leaving: seq<Object>)
      returns (localObjects: seq<Object>, removingObjects: seq<Object>)
      requires entering == EnteringObjects(player, seen) && leaving == LeavingObjects(player, seen)
      ensures localObjects == EnteringObjects(player, seen + os)
      ensures removingObjects == LeavingObjects(player, seen + os)
    {
      localObjects, removingObjects := entering, leaving;
      assert seen + os[..0] == seen;
      var j := 0;
      while j < |os|
        invariant 0 <= j <= |os|
        invariant localObjects == EnteringObjects(player, seen + os[..j])
        invariant removingObjects == LeavingObjects(player, seen + os[..j])
      {
        var o := os[j];
        assert seen + os[..j + 1] == (seen + os[..j]) + [o];
        ObjectStep(player, seen + os[..j], o);
        if LongestDelta(player.x, player.y, o.x, o.y) <= ObjectViewDistance {
          if o !in player.localObjects {
            localObjects := localObjects + [o];
          }
        } else {
          if o in player.localObjects {
            removingObjects := removingObjects + [o];
          }
        }
        j := j + 1;
      }
      assert os[..|os|] == os;
    }

    /**
     * The skill loop of `sendLoginResponse`: every skill starts at level 1 with
     * no experience, except Hits (slot 3) at level 10 with 1154 experience.
     */
    method InitialiseSkills()
      requires player.Valid()
      modifies player.current, player.maximum, player.experience
      ensures forall i :: 0 <= i < 18 ==>
        && player.current[i] == StartLevel(i) && player.maximum[i] == StartLevel(i)
        && player.experience[i] == StartExperience(i)
    {
      for i := 0 to 18
        invariant forall j :: 0 <= j < i ==>
          && player.current[j] == StartLevel(j) && player.maximum[j] == StartLevel(j)
          && player.experience[j] == StartExperience(j)
      {
        var level := 1;
        var exp := 0;
        if i == 3 {
          level := 10;
          exp := 1154;
        }
        player.current[i] := level;
        player.maximum[i] := level;
        player.experience[i] := exp;
      }
    }

    /**
     * `sendLoginResponse`: always queues the response code. A non-zero code
     * disconnects the client and changes nothing else. Code 0 is `Admit`.
     */
    method SendLoginResponse(code: int, grid: Grid, env: Env) returns (ghost region: Region?)
      requires 0 <= code < 256
      requires grid.Valid() && player.Valid()
      modifies this, player, player.current, player.maximum, player.experience, grid.cells, grid.Regions()
      ensures isaacSeed == old(isaacSeed) && player.appearances == old(player.appearances)
      ensures player.localPlayers == old(player.localPlayers) && player.localObjects == old(player.localObjects)
      ensures player.removing == old(player.removing) && player.hasMoved == old(player.hasMoved) && player.hasSelf == old(player.hasSelf)
      ensures code != 0 ==>
        && outgoing == old(outgoing) + [env.loginResponse(code)] && killed && region == null
        && player.connected == old(player.connected) && player.appearanceChanged == old(player.appearanceChanged)
        && player.current[..] == old(player.current[..]) && player.maximum[..] == old(player.maximum[..])
        && player.experience[..] == old(player.experience[..])
        && (forall i, j :: 0 <= i < HorizontalPlanes && 0 <= j < VerticalPlanes ==> grid.cells[i, j] == old(grid.cells[i, j]))
        && (forall r: Region :: r in old(grid.Regions()) ==> r.players == old(r.players) && r.objects == old(r.objects))
      ensures code == 0 ==>
        && outgoing == old(outgoing) + [env.loginResponse(0)] + env.loginPackets(player, env.clientCount)
        && killed == old(killed) && player.connected && player.appearanceChanged
        && region != null && grid.Serves(CellOf(player.x, player.y), region)
        && (InGrid(CellOf(player.x, player.y)) && old(grid.cells[CellOf(player.x, player.y).col, CellOf(player.x, player.y).row]) != null ==>
              region == old(grid.cells[CellOf(player.x, player.y).col, CellOf(player.x, player.y).row]))
        && (fresh(region) || region in old(grid.Regions()))
        && (fresh(region) ==> region.players == [player] && region.objects == [])
        && (!fresh(region) ==> region.players == old(region.players) + [player] && region.objects == old(region.objects))
        && (forall r: Region :: r in old(grid.Regions()) && r != region ==> r.players == old(r.players) && r.objects == old(r.objects))
        && (forall i, j :: 0 <= i < HorizontalPlanes && 0 <= j < VerticalPlanes && Cell(i, j) != CellOf(player.x, player.y) ==>
              grid.cells[i, j] == old(grid.cells[i, j]))
        && forall i :: 0 <= i < 18 ==>
          && player.current[i] == StartLevel(i) && player.maximum[i] == StartLevel(i)
          && player.experience[i] == StartExperience(i)
    {
      region := null;
      outgoing := outgoing + [env.loginResponse(code)];
      if code != 0 {
        killed := true;
        return;
      }
      region := Admit(grid, env);
    }

    /**
     * The code-0 part of `sendLoginResponse`: the player joins the region of its
     * tile, is marked connected with a changed appearance, gets the starting
     * skills, and the welcome packets are queued.
     */
    method Admit(grid: Grid, env: Env) returns (region: Region)
      requires grid.Valid() && player.Valid()
      modifies this, player, player.current, player.maximum, player.experience, grid.cells, grid.Regions()
      ensures isaacSeed == old(isaacSeed) && killed == old(killed) && player.appearances == old(player.appearances)
      ensures player.localPlayers == old(player.localPlayers) && player.localObjects == old(player.localObjects)
      ensures player.removing == old(player.removing) && player.hasMoved == old(player.hasMoved) && player.hasSelf == old(player.hasSelf)
      ensures outgoing == old(outgoing) + env.loginPackets(player, env.clientCount)
      ensures player.connected && player.appearanceChanged
      ensures grid.Serves(CellOf(player.x, player.y), region)
      ensures InGrid(CellOf(player.x, player.y)) && old(grid.cells[CellOf(player.x, player.y).col, CellOf(player.x, player.y).row]) != null ==>
        region == old(grid.cells[CellOf(player.x, player.y).col, CellOf(player.x, player.y).row])
      ensures fresh(region) || region in old(grid.Regions())
      ensures fresh(region) ==> region.players == [player] && region.objects == []
      ensures !fresh(region) ==> region.players == old(region.players) + [player] && region.objects == old(region.objects)
      ensures forall r: Region :: r in old(grid.Regions()) && r != region ==> r.players == old(r.players) && r.objects == old(r.objects)
      ensures forall i, j :: 0 <= i < HorizontalPlanes && 0 <= j < VerticalPlanes && Cell(i, j) != CellOf(player.x, player.y) ==>
        grid.cells[i, j] == old(grid.cells[i, j])
      ensures forall i :: 0 <= i < 18 ==>
        && player.current[i] == StartLevel(i) && player.maximum[i] == StartLevel(i)
        && player.experience[i] == StartExperience(i)
    {
      region := grid.GetRegion(player.x, player.y);
      region.AddPlayer(player);
      player.appearanceChanged := true;
      player.connected := true;
      InitialiseSkills();
      outgoing := outgoing + env.loginPackets(player, env.clientCount);
    }
  }

  /** Starting level of a skill slot. */
  function StartLevel(i: int): (level: int)
    ensures level == 1 || level == 10
    ensures level == 10 <==> i == 3
  {
    if i == 3 then 10 else 1
  }

  /** Starting experience of a skill slot. */
  function StartExperience(i: int): (exp: int)
    ensures exp == 0 || exp == 1154
    ensures exp == 1154 <==> i == 3
  {
    if i == 3 then 1154 else 0
  }
}
