/**
 * The room layout of the client (public/game.js, `create`): the tile grid,
 * the centre of each tile on screen, and which tiles become numbered chairs.
 */
module Layout {
  import opened Wrappers

  /** Tile size in pixels (public/game.js:43-44). */
  const TILE_W: real := 100.0
  const TILE_H: real := 75.0

  /** Tile codes of the room grid: floor, fireplace, table, chair. */
  const FLOOR: int := 0
  const FIREPLACE: int := 1
  const TABLE: int := 2
  const CHAIR: int := 3

  /** The room grid, row by row (public/game.js:51-60). */
  const ROOM_MAP: seq<seq<int>> := [
    [0, 0, 1, 1, 0, 0, 0, 0],
    [0, 0, 0, 0, 0, 0, 0, 0],
    [0, 0, 0, 0, 0, 0, 0, 0],
    [0, 0, 2, 2, 2, 0, 0, 0],
    [0, 3, 2, 2, 2, 3, 0, 0],
    [0, 0, 2, 2, 2, 0, 0, 0],
    [0, 0, 0, 0, 0, 0, 0, 0],
    [0, 0, 0, 0, 0, 0, 0, 0]
  ]

  datatype Tile = Tile(row: nat, col: nat)

  datatype Point = Point(x: real, y: real)

  /** The screen position of a tile's centre; it lies strictly inside the tile. */
  function Centre(t: Tile): (p: Point)
    ensures t.col as real * TILE_W < p.x < (t.col + 1) as real * TILE_W
    ensures t.row as real * TILE_H < p.y < (t.row + 1) as real * TILE_H
  {
    Point(t.col as real * TILE_W + TILE_W / 2.0, t.row as real * TILE_H + TILE_H / 2.0)
  }

  /** The tile under a point of the room's non-negative quarter-plane. */
  function TileUnder(p: Point): (t: Tile)
    requires 0.0 <= p.x && 0.0 <= p.y
    ensures t.col as real * TILE_W <= p.x < (t.col + 1) as real * TILE_W
    ensures t.row as real * TILE_H <= p.y < (t.row + 1) as real * TILE_H
  {
    Tile((p.y / TILE_H).Floor, (p.x / TILE_W).Floor)
  }

  /** Distinct tiles have distinct centres: the centre of a tile lies under that tile. */
  lemma CentreUnderItsTile(t: Tile)
    ensures TileUnder(Centre(t)) == t
  {
  }

  /** Row-major scan order: earlier row first, then smaller column. */
  predicate Before(a: Tile, b: Tile)
  {
    a.row < b.row || (a.row == b.row && a.col < b.col)
  }

  /** The chair tiles among the first `n` tiles of row `r`, in column order. */
  function RowChairs(row: seq<int>, r: nat, n: nat): seq<Tile>
    requires n <= |row|
    decreases n
  {
    if n == 0 then []
    else RowChairs(row, r, n - 1) + (if row[n - 1] == CHAIR then [Tile(r, n - 1)] else [])
  }

  /** The chair tiles of the first `m` rows, in the loader's scan order. */
  function ChairTiles(roomMap: seq<seq<int>>, m: nat): seq<Tile>
    requires m <= |roomMap|
    decreases m
  {
    if m == 0 then []
    else ChairTiles(roomMap, m - 1) + RowChairs(roomMap[m - 1], m - 1, |roomMap[m - 1]|)
  }

  /** The chairs of the whole grid. */
  function AllChairTiles(roomMap: seq<seq<int>>): seq<Tile>
  {
    ChairTiles(roomMap, |roomMap|)
  }

  /** Row `r` contributes exactly its chair-coded tiles, in increasing column order. */
  lemma {:induction false} RowChairsExact(row: seq<int>, r: nat, n: nat)
    requires n <= |row|
    ensures forall t :: t in RowChairs(row, r, n) <==> t.row == r && t.col < n && row[t.col] == CHAIR
    ensures forall i, j :: 0 <= i < j < |RowChairs(row, r, n)| ==>
      Before(RowChairs(row, r, n)[i], RowChairs(row, r, n)[j])
    decreases n
  {
    if n > 0 {
      RowChairsExact(row, r, n - 1);
      var prev := RowChairs(row, r, n - 1);
      assert forall i :: 0 <= i < |prev| ==> prev[i] in prev;
    }
  }

  /**
   * The loader's scan finds every tile holding code CHAIR and nothing else,
   * each once, in row-major order.
   */
  lemma {:induction false} ChairTilesExact(roomMap: seq<seq<int>>, m: nat)
    requires m <= |roomMap|
    ensures forall t :: t in ChairTiles(roomMap, m) <==>
      t.row < m && t.col < |roomMap[t.row]| && roomMap[t.row][t.col] == CHAIR
    ensures forall i, j :: 0 <= i < j < |ChairTiles(roomMap, m)| ==>
      Before(ChairTiles(roomMap, m)[i], ChairTiles(roomMap, m)[j])
    decreases m
  {
    if m > 0 {
      ChairTilesExact(roomMap, m - 1);
      RowChairsExact(roomMap[m - 1], m - 1, |roomMap[m - 1]|);
      var prev := ChairTiles(roomMap, m - 1);
      var last := RowChairs(roomMap[m - 1], m - 1, |roomMap[m - 1]|);
      assert forall i :: 0 <= i < |prev| ==> prev[i] in prev;
      assert forall j :: 0 <= j < |last| ==> last[j] in last;
    }
  }

  /** A row without chair codes yields no chairs. */
  lemma {:induction false} NoChairsInRow(row: seq<int>, r: nat, n: nat)
    requires n <= |row|
    requires forall c :: 0 <= c < n ==> row[c] != CHAIR
    ensures RowChairs(row, r, n) == []
    decreases n
  {
    if n > 0 {
      NoChairsInRow(row, r, n - 1);
    }
  }

  /** The room's chair row: chairs at columns 1 and 5, the table between them. */
  lemma ChairRow(r: nat)
    ensures RowChairs([0, 3, 2, 2, 2, 3, 0, 0], r, 8) == [Tile(r, 1), Tile(r, 5)]
  {
  }

  /** No chair stands in the first four rows of the room. */
  lemma UpperRoomHasNoChairs()
    ensures ChairTiles(ROOM_MAP, 4) == []
  {
    NoChairsInRow(ROOM_MAP[0], 0, 8);
    assert ChairTiles(ROOM_MAP, 1) == [];
    NoChairsInRow(ROOM_MAP[1], 1, 8);
    assert ChairTiles(ROOM_MAP, 2) == [];
    NoChairsInRow(ROOM_MAP[2], 2, 8);
    assert ChairTiles(ROOM_MAP, 3) == [];
    NoChairsInRow(ROOM_MAP[3], 3, 8);
  }

  /** The first five rows of the room hold the two chairs of row 4. */
  lemma ChairsUpToRowFour()
    ensures ChairTiles(ROOM_MAP, 5) == [Tile(4, 1), Tile(4, 5)]
  {
    UpperRoomHasNoChairs();
    ChairRow(4);
    assert ROOM_MAP[4] == [0, 3, 2, 2, 2, 3, 0, 0];
  }

  /** Rows 5 to 7 add no chairs. */
  lemma ChairsOfWholeRoom()
    ensures ChairTiles(ROOM_MAP, 8) == [Tile(4, 1), Tile(4, 5)]
  {
    ChairsUpToRowFour();
    NoChairsInRow(ROOM_MAP[5], 5, 8);
    assert ChairTiles(ROOM_MAP, 6) == [Tile(4, 1), Tile(4, 5)];
    NoChairsInRow(ROOM_MAP[6], 6, 8);
    assert ChairTiles(ROOM_MAP, 7) == [Tile(4, 1), Tile(4, 5)];
    NoChairsInRow(ROOM_MAP[7], 7, 8);
  }

  /** The given room has exactly two chairs, left and right of the table, centred at (150, 337.5) and (550, 337.5). */
  lemma RoomMapChairs()
    ensures AllChairTiles(ROOM_MAP) == [Tile(4, 1), Tile(4, 5)]
    ensures Centre(Tile(4, 1)) == Point(150.0, 337.5)
    ensures Centre(Tile(4, 5)) == Point(550.0, 337.5)
  {
    ChairsOfWholeRoom();
  }
}
