/**
 * The registry of logged-in players of package `players`
 * (pkg/server/players/playermap.go): two maps, one keyed by the base-37
 * username hash and one by the player's index, which `Put` and `Remove` update
 * together, and the search for the lowest free index.
 */
module Players {
  import opened World

  /** The least index in `[from, max)` that is not a key of `taken`, or -1 when every one of them is. */
  function LeastFree(taken: set<int>, from: int, max: int): (i: int)
    decreases max - from
  {
    if from >= max then -1
    else if from !in taken then from
    else LeastFree(taken, from + 1, max)
  }

  /** `LeastFree` finds the lowest free index when there is one and reports -1 exactly when there is none. */
  lemma {:induction false} LeastFreeMeans(taken: set<int>, from: int, max: int)
    requires 0 <= from
    ensures var i := LeastFree(taken, from, max);
      && (i == -1 <==> forall j :: from <= j < max ==> j in taken)
      && (i != -1 ==> from <= i < max && i !in taken && forall j :: from <= j < i ==> j in taken)
    decreases max - from
  {
    if from < max && from in taken {
      LeastFreeMeans(taken, from + 1, max);
    }
  }

  /** The connected players of `m` under the keys of `order`, visited in that order. */
  function Visited(m: map<int, Player>, order: seq<int>): (acted: seq<Player>)
    requires forall i :: 0 <= i < |order| ==> order[i] in m
    reads m.Values
    ensures |acted| <= |order|
  {
    if order == [] then []
    else
      var last := m[order[|order| - 1]];
      Visited(m, order[..|order| - 1]) + (if last.connected then [last] else [])
  }

  /** `Visited` holds exactly the connected players of the visited keys. */
  lemma {:induction false} VisitedMeans(m: map<int, Player>, order: seq<int>)
    requires forall i :: 0 <= i < |order| ==> order[i] in m
    ensures forall p :: p in Visited(m, order) <==> exists i :: 0 <= i < |order| && m[order[i]] == p && p.connected
  {
    if order != [] {
      var n := |order| - 1;
      var front := order[..n];
      VisitedMeans(m, front);
      forall p
        ensures p in Visited(m, order) <==> exists i :: 0 <= i < |order| && m[order[i]] == p && p.connected
      {
        if p in Visited(m, order) && p !in Visited(m, front) {
          assert m[order[n]] == p && p.connected;
        }
        if p in Visited(m, front) {
          var i :| 0 <= i < n && m[front[i]] == p && p.connected;
          assert order[i] == front[i];
        }
        if exists i :: 0 <= i < |order| && m[order[i]] == p && p.connected {
          var i :| 0 <= i < |order| && m[order[i]] == p && p.connected;
          if i < n {
            assert front[i] == order[i];
          }
        }
      }
    }
  }

  /** When every key is visited once, each connected key contributes exactly one entry. */
  lemma {:induction false} VisitedCount(m: map<int, Player>, order: seq<int>)
    requires forall i :: 0 <= i < |order| ==> order[i] in m
    requires forall i, j :: 0 <= i < j < |order| ==> order[i] != order[j]
    ensures |Visited(m, order)| == |set k | k in order && m[k].connected|
  {
    if order != [] {
      var front, last := order[..|order| - 1], order[|order| - 1];
      VisitedCount(m, front);
      assert order == front + [last];
      assert last !in front;
      assert (set k | k in order && m[k].connected)
        == (set k | k in front && m[k].connected) + (if m[last].connected then {last} else {});
    }
  }

  /** The registry; `maxPlayers` is the configured player limit. */
  class PlayerMap {
    var usernames: map<bv64, Player>
    var indices: map<int, Player>
    const maxPlayers: int

    constructor (maxPlayers: int)
      ensures usernames == map[] && indices == map[] && this.maxPlayers == maxPlayers
    {
      usernames := map[];
      indices := map[];
      this.maxPlayers := maxPlayers;
    }

    /** `FromUserHash`: the player registered under `hash`, if any. */
    method FromUserHash(hash: bv64) returns (p: Player?, ok: bool)
      ensures ok <==> hash in usernames
      ensures ok ==> p == usernames[hash]
      ensures !ok ==> p == null
    {
      if hash in usernames {
        return usernames[hash], true;
      }
      return null, false;
    }

    /** `ContainsHash`: whether a player is registered under `hash`, as `FromUserHash` reports it. */
    method ContainsHash(hash: bv64) returns (b: bool)
      ensures b <==> hash in usernames
    {
      var _, ok := FromUserHash(hash);
      return ok;
    }

    /** `FromIndex`: the player registered under `index`, if any. */
    method FromIndex(index: int) returns (p: Player?, ok: bool)
      ensures ok <==> index in indices
      ensures ok ==> p == indices[index]
      ensures !ok ==> p == null
    {
      if index in indices {
        return indices[index], true;
      }
      return null, false;
    }

    /** `Size`: the number of username entries. */
    method Size() returns (n: int)
      ensures n == |usernames|
    {
      return |usernames|;
    }

    /** `NextIndex`: the lowest index below the limit with no player, or -1 when all are taken. */
    method NextIndex() returns (i: int)
      ensures i == LeastFree(indices.Keys, 0, maxPlayers)
    {
      i := 0;
      while i < maxPlayers
        invariant 0 <= i
        invariant i <= maxPlayers || maxPlayers < 0
        invariant LeastFree(indices.Keys, i, maxPlayers) == LeastFree(indices.Keys, 0, maxPlayers)
      {
        if i !in indices {
          return i;
        }
        i := i + 1;
      }
      return -1;
    }

    /**
     * `Put`: gives `c` the lowest free index and registers it under its hash
     * and that index; with no free index the index is -1, as the source does.
     */
    method Put(c: Player)
      modifies this, c.mob
      ensures c.mob.index == LeastFree(old(indices.Keys), 0, maxPlayers)
      ensures usernames == old(usernames)[c.userBase37 := c]
      ensures indices == old(indices)[c.mob.index := c]
      ensures c.mob.x == old(c.mob.x) && c.mob.y == old(c.mob.y)
    {
      var next := NextIndex();
      c.mob.index := next;
      usernames := usernames[c.userBase37 := c];
      indices := indices[next := c];
    }

    /** `Remove`: drops the entries under `c`'s hash and `c`'s index, and no others. */
    method Remove(c: Player)
      modifies this
      ensures usernames == old(usernames) - {c.userBase37}
      ensures indices == old(indices) - {c.mob.index}
    {
      usernames := usernames - {c.userBase37};
      indices := indices - {c.mob.index};
    }

    /**
     * `Range`: the players the action is applied to, one per index entry whose
     * player is connected. Go visits a map in an unspecified order; that order
     * is the parameter `order`, which lists every index key once.
     */
    method Range(order: seq<int>) returns (acted: seq<Player>)
      requires forall i :: 0 <= i < |order| ==> order[i] in indices
      requires forall k :: k in indices ==> k in order
      requires forall i, j :: 0 <= i < j < |order| ==> order[i] != order[j]
      ensures acted == Visited(indices, order)
    {
      acted := [];
      for n := 0 to |order|
        invariant acted == Visited(indices, order[..n])
      {
        assert order[..n + 1][..n] == order[..n];
        var c := indices[order[n]];
        if c.connected {
          acted := acted + [c];
        }
      }
      assert order[..|order|] == order;
    }
  }
}
