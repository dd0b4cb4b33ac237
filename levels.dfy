/** The level table (src/levels.rs): a 12 by 16 grid of terrain kinds, given
    in the source as `from_u8` codes, and the total level lookup. */
module Levels {

  import opened TerrainMap

  /** A grid of exactly MAP_ROWS rows of MAP_COLS cells each. */
  predicate HasMapShape<T>(grid: seq<seq<T>>)
  {
    |grid| == MAP_ROWS && forall r :: 0 <= r < |grid| ==> |grid[r]| == MAP_COLS
  }

  type LevelMap = m: seq<seq<TerrainType>> | HasMapShape(m)
    witness seq(MAP_ROWS, _ => seq(MAP_COLS, _ => Empty))

  /** The codes of the first level, row 0 at the top of the map. */
  const LEVEL_1_CODES: seq<seq<u8>> := [
    [0, 0, 0, 0, 0, 0, 0, 0, 0, 0, 0, 0, 0, 0, 0, 0],
    [3, 3, 3, 3, 3, 3, 0, 0, 0, 0, 0, 0, 0, 0, 0, 0],
    [1, 1, 3, 3, 2, 2, 0, 0, 0, 3, 3, 2, 2, 2, 2, 2],
    [2, 2, 3, 3, 0, 0, 4, 4, 4, 3, 3, 0, 0, 0, 0, 0],
    [2, 2, 3, 3, 0, 0, 4, 4, 4, 3, 3, 0, 0, 1, 0, 0],
    [1, 1, 0, 0, 0, 0, 4, 4, 4, 3, 3, 0, 0, 1, 1, 2],
    [0, 0, 0, 0, 0, 0, 0, 0, 0, 3, 3, 0, 0, 1, 1, 2],
    [0, 0, 0, 0, 0, 0, 0, 0, 0, 0, 0, 0, 0, 1, 1, 2],
    [0, 0, 0, 0, 0, 0, 0, 0, 0, 0, 0, 0, 0, 1, 1, 2],
    [0, 0, 0, 0, 0, 0, 0, 0, 0, 0, 0, 0, 0, 1, 1, 0],
    [0, 0, 0, 0, 0, 0, 0, 0, 0, 0, 0, 0, 0, 0, 1, 1],
    [0, 0, 0, 0, 0, 0, 0, 0, 0, 0, 0, 0, 0, 1, 1, 0]
  ]

  /** Decodes a grid of codes cell by cell. */
  function DecodeGrid(codes: seq<seq<u8>>): (grid: seq<seq<TerrainType>>)
    ensures |grid| == |codes|
    ensures forall r :: 0 <= r < |codes| ==> |grid[r]| == |codes[r]|
    ensures forall r, c :: 0 <= r < |codes| && 0 <= c < |codes[r]| ==> grid[r][c] == FromU8(codes[r][c])
  {
    seq(|codes|, r requires 0 <= r < |codes| => seq(|codes[r]|, c requires 0 <= c < |codes[r]| => FromU8(codes[r][c])))
  }

  const LEVEL_1: LevelMap := DecodeGrid(LEVEL_1_CODES)

  /** Level lookup: level 1 and every other number give the first level. */
  function GetLevel(level: nat): (m: LevelMap)
    ensures m == LEVEL_1
  {
    match level
    case 1 => LEVEL_1
    case _ => LEVEL_1
  }

  /** Every code of the first level lies in 0..4, so its grid has no barrier. */
  lemma Level1HasNoBarrier()
    ensures forall r, c :: 0 <= r < MAP_ROWS && 0 <= c < MAP_COLS ==> LEVEL_1_CODES[r][c] <= 4
    ensures forall r, c :: 0 <= r < MAP_ROWS && 0 <= c < MAP_COLS ==> LEVEL_1[r][c] != Barrier
  {
    forall r, c | 0 <= r < MAP_ROWS && 0 <= c < MAP_COLS
      ensures LEVEL_1_CODES[r][c] <= 4
    {
      var row := LEVEL_1_CODES[r];
      assert forall k :: 0 <= k < |row| ==> row[k] <= 4 by {
        assert r in {0, 1, 2, 3, 4, 5, 6, 7, 8, 9, 10, 11};
      }
    }
  }

  /** The top row is empty, so the enemy birth places along the top edge are free. */
  lemma Level1TopRowEmpty()
    ensures forall c :: 0 <= c < MAP_COLS ==> LEVEL_1[0][c] == Empty
  {
  }
}
