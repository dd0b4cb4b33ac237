/** Terrain kinds, their one-byte codes and texture paths, and the mapping
    between grid cells and world coordinates (src/map.rs). */
module TerrainMap {

  import opened Constants

  /** An unsigned 8-bit value, the argument type of `from_u8`. */
  newtype u8 = x: int | 0 <= x < 256

  /** The six terrain kinds; `Discriminant` gives each one's declared number. */
  datatype TerrainType = Empty | Forest | Sea | Brick | Steel | Barrier

  function Discriminant(t: TerrainType): (n: u8)
    ensures n <= 5
  {
    match t
    case Empty => 0
    case Forest => 1
    case Sea => 2
    case Brick => 3
    case Steel => 4
    case Barrier => 5
  }

  /** Decodes a terrain code; every code above 5 falls back to `Empty`. */
  function FromU8(n: u8): (t: TerrainType)
    ensures n <= 5 ==> Discriminant(t) == n
    ensures n > 5 ==> t == Empty
  {
    match n
    case 0 => Empty
    case 1 => Forest
    case 2 => Sea
    case 3 => Brick
    case 4 => Steel
    case 5 => Barrier
    case _ => Empty
  }

  /** Decoding the discriminant of a terrain kind gives that kind back. */
  lemma FromU8Discriminant(t: TerrainType)
    ensures FromU8(Discriminant(t)) == t
  {
  }

  /** Two codes in range decode to the same kind only if they are equal. */
  lemma FromU8Injective(m: u8, n: u8)
    requires m <= 5 && n <= 5
    ensures FromU8(m) == FromU8(n) <==> m == n
  {
  }

  function TexturePath(t: TerrainType): (path: string)
    ensures path == "" <==> t == Empty
  {
    match t
    case Empty => ""
    case Forest => "maps/tree.png"
    case Sea => "sea_sheet.png"
    case Brick => "brick.png"
    case Steel => "steel.png"
    case Barrier => "barrier.png"
  }

  /** Different terrain kinds never share a texture path. */
  lemma TexturePathInjective(s: TerrainType, t: TerrainType)
    ensures TexturePath(s) == TexturePath(t) <==> s == t
  {
  }

  const MAP_ROWS: nat := 12
  const MAP_COLS: nat := 16
  const GRID_SIZE: real := 100.0

  /** The centre of cell (row, col): columns grow to the right, rows downwards. */
  function GridToWorld(row: nat, col: nat): (p: Vec2)
    ensures p.x - MAP_LEFT_X == GRID_SIZE * col as real + GRID_SIZE / 2.0
    ensures MAP_TOP_Y - p.y == GRID_SIZE * row as real + GRID_SIZE / 2.0
  {
    Vec2(MAP_LEFT_X + col as real * GRID_SIZE + GRID_SIZE / 2.0,
         MAP_TOP_Y - row as real * GRID_SIZE - GRID_SIZE / 2.0)
  }

  /** Rust's saturating float-to-usize cast: truncation toward zero, and every
      negative value becomes 0. */
  function CastToUsize(v: real): (n: nat)
    ensures v >= 0.0 ==> n as real <= v < n as real + 1.0
    ensures v < 0.0 ==> n == 0
  {
    if v < 0.0 then 0 else v.Floor
  }

  /** The (row, col) of the cell containing a world point. */
  function WorldToGrid(p: Vec2): (cell: (nat, nat))
  {
    (CastToUsize((MAP_TOP_Y - p.y) / GRID_SIZE), CastToUsize((p.x - MAP_LEFT_X) / GRID_SIZE))
  }

  /** Every point inside the square of cell (row, col), borders on the top and
      left included, maps back to (row, col). */
  lemma WorldToGridInsideCell(row: nat, col: nat, p: Vec2)
    requires MAP_LEFT_X + GRID_SIZE * col as real <= p.x < MAP_LEFT_X + GRID_SIZE * (col as real + 1.0)
    requires MAP_TOP_Y - GRID_SIZE * (row as real + 1.0) < p.y <= MAP_TOP_Y - GRID_SIZE * row as real
    ensures WorldToGrid(p) == (row, col)
  {
    var u := (MAP_TOP_Y - p.y) / GRID_SIZE;
    var v := (p.x - MAP_LEFT_X) / GRID_SIZE;
    assert row as real <= u < row as real + 1.0;
    assert col as real <= v < col as real + 1.0;
    FloorOfBracket(u, row);
    FloorOfBracket(v, col);
  }

  lemma FloorOfBracket(u: real, k: nat)
    requires k as real <= u < k as real + 1.0
    ensures CastToUsize(u) == k
  {
    var n := CastToUsize(u);
    assert n as real <= u < n as real + 1.0;
  }

  /** The centre of a cell maps back to that cell. */
  lemma GridRoundTrip(row: nat, col: nat)
    requires row < MAP_ROWS && col < MAP_COLS
    ensures WorldToGrid(GridToWorld(row, col)) == (row, col)
  {
    WorldToGridInsideCell(row, col, GridToWorld(row, col));
  }

  /** Sixteen columns and twelve rows of 100-unit cells cover exactly the
      1600 by 1200 map area. */
  lemma GridSpansMap()
    ensures MAP_COLS as real * GRID_SIZE == MAP_WIDTH
    ensures MAP_ROWS as real * GRID_SIZE == MAP_HEIGHT
  {
  }
}
