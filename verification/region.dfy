/**
 * The spatial grid of package `entity` (pkg/entity/region.go): the world is cut
 * into 48x48-tile regions, kept in a lazily filled two-dimensional array, each
 * holding unordered lists of the players and objects inside it. This module also
 * declares the fields of `entity.Player` and `entity.Object` that the grid and
 * the per-client view update (pkg/server/client.go) use.
 */
module Entity {
  import opened Arith

  /** Side of a region, in tiles. */
  const RegionSize: int := 48
  /**
   * World extent. `MaxX`/`MaxY` are declared outside region.go; the values are
   * the RuneScape Classic map bounds.
   */
  const MaxX: int := 944
  const MaxY: int := 3776
  /** Columns and rows of regions, so that every coordinate in [0, Max] has a cell. */
  const HorizontalPlanes: int := MaxX / RegionSize + 1
  const VerticalPlanes: int := MaxY / RegionSize + 1
  /** The middle of a region, which picks the neighbouring column and row. */
  const LowerBound: int := RegionSize / 2

  /**
   * A world object, as far as the grid and the view update see it. Its index
   * and tile are fixed: nothing modelled here moves an object.
   */
  class Object {
    const index: int
    const x: int
    const y: int

    constructor (index: int, x: int, y: int)
      ensures this.index == index && this.x == x && this.y == y
    {
      this.index := index;
      this.x := x;
      this.y := y;
    }
  }

  /** A player, as far as the grid, the view update and the login sequence see it. */
  class Player {
    /** The index and the tile are fixed: walking is not part of this model. */
    const index: int
    const x: int
    const y: int
    var connected: bool
    var removing: bool
    var hasMoved: bool
    var appearanceChanged: bool
    var hasSelf: bool
    /** The players and objects the client last knew to be in view. */
    var localPlayers: seq<Player>
    var localObjects: seq<Object>
    /** Indexes of players whose appearance this client must be sent. */
    var appearances: seq<int>
    const current: array<int>
    const maximum: array<int>
    const experience: array<int>

    ghost predicate Valid()
      reads this
    {
      current.Length == 18 && maximum.Length == 18 && experience.Length == 18
      && current != maximum && current != experience && maximum != experience
    }

    constructor (index: int, x: int, y: int)
      ensures Valid() && fresh(current) && fresh(maximum) && fresh(experience)
      ensures this.index == index && this.x == x && this.y == y
      ensures !connected && localPlayers == [] && localObjects == [] && appearances == []
    {
      this.index := index;
      this.x := x;
      this.y := y;
      connected := false;
      removing := false;
      hasMoved := false;
      appearanceChanged := false;
      hasSelf := false;
      localPlayers := [];
      localObjects := [];
      appearances := [];
      current := new int[18](_ => 0);
      maximum := new int[18](_ => 0);
      experience := new int[18](_ => 0);
    }
  }

  /** The indexes of a list of entities, in order; `index` reads an entity's own index. */
  function Indexes<T>(es: seq<T>, index: T -> int): (r: seq<int>)
    ensures |r| == |es| && forall k :: 0 <= k < |es| ==> r[k] == index(es[k])
  {
    if es == [] then [] else Indexes(es[..|es| - 1], index) + [index(es[|es| - 1])]
  }

  /** A player's index, which never changes once the player is created. */
  function PlayerIndex(p: Player): int { p.index }

  /** An object's index, which never changes once the object is created. */
  function ObjectIndex(o: Object): int { o.index }

  /** Position of the first occurrence of `index`, or the length when there is none. */
  function FirstMatch(indexes: seq<int>, index: int): (k: nat)
    ensures k <= |indexes|
    ensures k < |indexes| ==> indexes[k] == index
    ensures forall j :: 0 <= j < k ==> indexes[j] != index
  {
    if indexes == [] then 0
    else if indexes[0] == index then 0
    else 1 + FirstMatch(indexes[1..], index)
  }

  /**
   * The list with element `k` overwritten by the last element and the last
   * slot dropped: one shorter, and unchanged everywhere but at `k`.
   */
  function SwapRemove<T>(s: seq<T>, k: nat): (r: seq<T>)
    requires k < |s|
    ensures |r| == |s| - 1
    ensures forall j :: 0 <= j < |r| && j != k ==> r[j] == s[j]
    ensures k < |r| ==> r[k] == s[|s| - 1]
  {
    s[k := s[|s| - 1]][..|s| - 1]
  }

  /** Swap-with-last removal drops exactly one copy of the removed element. */
  lemma SwapRemoveMultiset<T>(s: seq<T>, k: nat)
    requires k < |s|
    ensures multiset(SwapRemove(s, k)) == multiset(s) - multiset{s[k]}
  {
    var last := |s| - 1;
    if k == last {
      assert s == SwapRemove(s, k) + [s[k]];
    } else {
      var front, middle := s[..k], s[k + 1..last];
      assert s == front + [s[k]] + middle + [s[last]];
      assert SwapRemove(s, k) == front + [s[last]] + middle;
    }
  }

  /** A region's membership lists. */
  class Region {
    var players: seq<Player>
    var objects: seq<Object>

    constructor ()
      ensures players == [] && objects == []
    {
      players := [];
      objects := [];
    }

    /** `AddPlayer`: appends; the earlier members keep their order. */
    method AddPlayer(p: Player)
      modifies this
      ensures players == old(players) + [p] && objects == old(objects)
    {
      players := players + [p];
    }

    /**
     * `RemovePlayer`: the first member with the same index is overwritten by the
     * last member and the list shrinks by one; with no such member nothing changes.
     */
    method RemovePlayer(p: Player)
      modifies this
      ensures objects == old(objects)
      ensures var k := FirstMatch(old(Indexes(players, PlayerIndex)), p.index);
        if k == |old(players)| then players == old(players) else players == SwapRemove(old(players), k)
    {
      var i := 0;
      while i < |players|
        invariant 0 <= i <= |players|
        invariant players == old(players) && objects == old(objects)
        invariant forall j :: 0 <= j < i ==> players[j].index != p.index
      {
        if players[i].index == p.index {
          assert FirstMatch(Indexes(players, PlayerIndex), p.index) == i by {
            FirstMatchAt(Indexes(players, PlayerIndex), p.index, i);
          }
          var last := |players| - 1;
          players := players[i := players[last]][..last];
          return;
        }
        i := i + 1;
      }
      FirstMatchNone(Indexes(players, PlayerIndex), p.index);
    }

    /** `AddObject`: appends; the earlier members keep their order. */
    method AddObject(o: Object)
      modifies this
      ensures objects == old(objects) + [o] && players == old(players)
    {
      objects := objects + [o];
    }

    /**
     * `RemoveObject`: the first member with the same index is overwritten by the
     * last member and the list shrinks by one; with no such member nothing changes.
     */
    method RemoveObject(o: Object)
      modifies this
      ensures players == old(players)
      ensures var k := FirstMatch(old(Indexes(objects, ObjectIndex)), o.index);
        if k == |old(objects)| then objects == old(objects) else objects == SwapRemove(old(objects), k)
    {
      var i := 0;
      while i < |objects|
        invariant 0 <= i <= |objects|
        invariant objects == old(objects) && players == old(players)
        invariant forall j :: 0 <= j < i ==> objects[j].index != o.index
      {
        if objects[i].index == o.index {
          assert FirstMatch(Indexes(objects, ObjectIndex), o.index) == i by {
            FirstMatchAt(Indexes(objects, ObjectIndex), o.index, i);
          }
          var last := |objects| - 1;
          objects := objects[i := objects[last]][..last];
          return;
        }
        i := i + 1;
      }
      FirstMatchNone(Indexes(objects, ObjectIndex), o.index);
    }
  }

  /** `FirstMatch` finds the first hit a left-to-right scan finds. */
  lemma {:induction false} FirstMatchAt(indexes: seq<int>, index: int, i: nat)
    requires i < |indexes| && indexes[i] == index
    requires forall j :: 0 <= j < i ==> indexes[j] != index
    ensures FirstMatch(indexes, index) == i
  {
    if i > 0 {
      FirstMatchAt(indexes[1..], index, i - 1);
    }
  }

  /** `FirstMatch` reports no hit exactly when the index occurs nowhere. */
  lemma {:induction false} FirstMatchNone(indexes: seq<int>, index: int)
    requires forall j :: 0 <= j < |indexes| ==> indexes[j] != index
    ensures FirstMatch(indexes, index) == |indexes|
  {
    if indexes != [] {
      FirstMatchNone(indexes[1..], index);
    }
  }

  /** A cell of the region grid: its column and row. */
  datatype Cell = Cell(col: int, row: int)

  predicate InGrid(c: Cell) {
    0 <= c.col < HorizontalPlanes && 0 <= c.row < VerticalPlanes
  }

  /** The cell holding a coordinate: Go's truncating division by the region size. */
  function CellOf(x: int, y: int): Cell {
    Cell(Quot(x, RegionSize), Quot(y, RegionSize))
  }

  /** Every coordinate inside the world has a cell inside the grid. */
  lemma WorldInGrid(x: int, y: int)
    requires 0 <= x <= MaxX && 0 <= y <= MaxY
    ensures InGrid(CellOf(x, y))
  {
  }

  /**
   * The four cells `SurroundingRegions` consults: the containing cell, then the
   * neighbouring column, the diagonal and the neighbouring row, where the
   * neighbour lies on the side of the cell's midpoint the coordinate is on
   * (offsets up to 24 look back, larger ones look forward).
   */
  function SurroundingCells(x: int, y: int): (cells: seq<Cell>)
    ensures |cells| == 4
  {
    var ax, ay := Quot(x, RegionSize), Quot(y, RegionSize);
    var relX, relY := Rem(x, RegionSize), Rem(y, RegionSize);
    var nx := if relX <= LowerBound then ax - 1 else ax + 1;
    var ny := if relY <= LowerBound then ay - 1 else ay + 1;
    [Cell(ax, ay), Cell(nx, ay), Cell(nx, ny), Cell(ax, ny)]
  }

  /** Slot 0 is the containing cell; slots 1-3 share its column or row with it or with each other. */
  lemma SurroundingShape(x: int, y: int)
    ensures var cells := SurroundingCells(x, y);
      && cells[0] == CellOf(x, y)
      && cells[1].row == cells[0].row && cells[3].col == cells[0].col
      && cells[2] == Cell(cells[1].col, cells[3].row)
      && (cells[1].col == cells[0].col - 1 <==> Rem(x, RegionSize) <= LowerBound)
      && (cells[1].col == cells[0].col + 1 <==> Rem(x, RegionSize) > LowerBound)
      && (cells[3].row == cells[0].row - 1 <==> Rem(y, RegionSize) <= LowerBound)
      && (cells[3].row == cells[0].row + 1 <==> Rem(y, RegionSize) > LowerBound)
  {
  }

  /** The four surrounding cells are pairwise different, so allocating one never touches another. */
  lemma SurroundingDistinct(x: int, y: int)
    ensures var cells := SurroundingCells(x, y);
      forall k, l :: 0 <= k < l < 4 ==> cells[k] != cells[l]
  {
    SurroundingShape(x, y);
  }

  /** Along one axis: a coordinate within 23 tiles lies in the containing column or the chosen neighbour. */
  lemma {:induction false} AxisCovered(x: int, px: int)
    requires 0 <= x && 0 <= px && -23 <= px - x <= 23
    ensures var ax := x / RegionSize;
      var nx := if x % RegionSize <= LowerBound then ax - 1 else ax + 1;
      px / RegionSize == ax || px / RegionSize == nx
  {
    var ax, r := x / RegionSize, x % RegionSize;
    assert x == ax * RegionSize + r;
    if r <= LowerBound {
      // px lies in [48ax - 23, 48ax + 47].
      assert (ax - 1) * RegionSize <= px < (ax + 1) * RegionSize;
    } else {
      // px lies in [48ax + 2, 48ax + 95].
      assert ax * RegionSize <= px < (ax + 2) * RegionSize;
    }
  }

  /**
   * For coordinates that are not negative, every point within Chebyshev distance
   * 23 lies in one of the four surrounding cells: the view distances 15 and 20
   * used by the view update are covered.
   */
  lemma SurroundingCovers(x: int, y: int, px: int, py: int)
    requires 0 <= x && 0 <= y && 0 <= px && 0 <= py
    requires -23 <= px - x <= 23 && -23 <= py - y <= 23
    ensures CellOf(px, py) in SurroundingCells(x, y)
  {
    AxisCovered(x, px);
    AxisCovered(y, py);
    var cells := SurroundingCells(x, y);
    var c := CellOf(px, py);
    assert c == cells[0] || c == cells[1] || c == cells[2] || c == cells[3];
  }

  /** The global `regions` array, filled on first use. */
  class Grid {
    const cells: array2<Region?>

    ghost predicate Valid()
      reads this
    {
      cells.Length0 == HorizontalPlanes && cells.Length1 == VerticalPlanes
    }

    constructor ()
      ensures Valid() && fresh(cells)
      ensures forall i, j :: 0 <= i < HorizontalPlanes && 0 <= j < VerticalPlanes ==> cells[i, j] == null
    {
      cells := new Region?[HorizontalPlanes, VerticalPlanes]((_, _) => null);
    }

    /** The regions allocated so far. */
    ghost function Regions(): set<object>
      reads this, cells
    {
      set i, j | 0 <= i < cells.Length0 && 0 <= j < cells.Length1 && cells[i, j] != null :: cells[i, j]
    }

    /** `r` is what `getRegionFromIndex` hands out for `c` in the current grid. */
    ghost predicate Serves(c: Cell, r: Region)
      requires Valid()
      reads this, cells
    {
      InGrid(c) ==> cells[c.col, c.row] == r
    }

    /**
     * `getRegionFromIndex`: an in-range cell's region, allocated on first use and
     * kept from then on; an out-of-range index gets a fresh, empty region that is
     * not stored.
     */
    method RegionAt(c: Cell) returns (r: Region)
      requires Valid()
      modifies cells
      ensures Serves(c, r)
      ensures InGrid(c) && old(cells[c.col, c.row]) != null ==> r == old(cells[c.col, c.row])
      ensures !InGrid(c) || old(cells[c.col, c.row]) == null ==> fresh(r) && r.players == [] && r.objects == []
      ensures forall i, j :: 0 <= i < HorizontalPlanes && 0 <= j < VerticalPlanes && (i != c.col || j != c.row) ==>
        cells[i, j] == old(cells[i, j])
      ensures !InGrid(c) ==> forall i, j :: 0 <= i < HorizontalPlanes && 0 <= j < VerticalPlanes ==>
        cells[i, j] == old(cells[i, j])
    {
      if c.col < 0 || c.col >= HorizontalPlanes {
        r := new Region();
        return;
      }
      if c.row < 0 || c.row >= VerticalPlanes {
        r := new Region();
        return;
      }
      if cells[c.col, c.row] == null {
        var created := new Region();
        cells[c.col, c.row] := created;
      }
      r := cells[c.col, c.row];
    }

    /** `GetRegion`: the region of the cell holding the coordinate. */
    method GetRegion(x: int, y: int) returns (r: Region)
      requires Valid()
      modifies cells
      ensures Serves(CellOf(x, y), r)
      ensures 0 <= x <= MaxX && 0 <= y <= MaxY ==> cells[Quot(x, RegionSize), Quot(y, RegionSize)] == r
      ensures forall i, j :: 0 <= i < HorizontalPlanes && 0 <= j < VerticalPlanes && Cell(i, j) != CellOf(x, y) ==>
        cells[i, j] == old(cells[i, j])
      ensures InGrid(CellOf(x, y)) && old(cells[Quot(x, RegionSize), Quot(y, RegionSize)]) != null ==>
        r == old(cells[Quot(x, RegionSize), Quot(y, RegionSize)])
      ensures fresh(r) || r in old(Regions())
      ensures fresh(r) ==> r.players == [] && r.objects == []
    {
      WorldInGrid(if 0 <= x <= MaxX then x else 0, if 0 <= y <= MaxY then y else 0);
      r := RegionAt(CellOf(x, y));
    }

    /**
     * `SurroundingRegions`: the regions of the four `SurroundingCells`, each
     * obtained as `getRegionFromIndex` does; cells outside the grid yield fresh
     * empty regions.
     */
    method SurroundingRegions(x: int, y: int) returns (regions: seq<Region>)
      requires Valid()
      modifies cells
      ensures |regions| == 4
      ensures forall k :: 0 <= k < 4 ==> Serves(SurroundingCells(x, y)[k], regions[k])
      ensures var cs := SurroundingCells(x, y);
        forall k :: 0 <= k < 4 && InGrid(cs[k]) && old(cells[cs[k].col, cs[k].row]) != null ==>
          regions[k] == old(cells[cs[k].col, cs[k].row])
      ensures var cs := SurroundingCells(x, y);
        forall k :: 0 <= k < 4 && (!InGrid(cs[k]) || old(cells[cs[k].col, cs[k].row]) == null) ==>
          fresh(regions[k]) && regions[k].players == [] && regions[k].objects == []
      ensures forall i, j :: 0 <= i < HorizontalPlanes && 0 <= j < VerticalPlanes && Cell(i, j) !in SurroundingCells(x, y) ==>
        cells[i, j] == old(cells[i, j])
    {
      var cs := SurroundingCells(x, y);
      SurroundingDistinct(x, y);
      var r0 := RegionAt(cs[0]);
      var r1 := RegionAt(cs[1]);
      var r2 := RegionAt(cs[2]);
      var r3 := RegionAt(cs[3]);
      regions := [r0, r1, r2, r3];
    }
  }
}
