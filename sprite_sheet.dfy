/** The enemy-birth sprite-sheet packer (process_enemy_born.py): it keeps the
    `.png` names of a directory listing in sorted order, loads and resizes
    each frame to 87 by 87, and pastes frame i into cell i of a 4-column grid
    on a transparent canvas. Decoding, resampling and saving are I/O and come
    in as parameters. */
module SpriteSheet {

  import opened Wrappers

  const TANK_WIDTH: nat := 87
  const TANK_HEIGHT: nat := 87
  const COLS: nat := 4
  const PNG_SUFFIX: string := ".png"

  newtype byte = x: int | 0 <= x < 256

  datatype Rgba = Rgba(r: byte, g: byte, b: byte, a: byte)

  /** The fill of `Image.new('RGBA', size)`: every channel zero. */
  const TRANSPARENT: Rgba := Rgba(0, 0, 0, 0)

  /** A decoded RGBA image; `px[y][x]` is the pixel in column x of row y. */
  datatype Image = Image(width: nat, height: nat, px: seq<seq<Rgba>>)

  predicate WellFormed(img: Image)
  {
    |img.px| == img.height && forall y :: 0 <= y < |img.px| ==> |img.px[y]| == img.width
  }

  predicate IsTile(img: Image)
  {
    img.width == TANK_WIDTH && img.height == TANK_HEIGHT && WellFormed(img)
  }

  /** An image of exactly tile size: what the resize step produces. */
  type Tile = img: Image | IsTile(img)
    witness Image(TANK_WIDTH, TANK_HEIGHT, seq(TANK_HEIGHT, _ => seq(TANK_WIDTH, _ => TRANSPARENT)))

  // -------------------------------------------------------------------------
  // Frame selection: `sorted([f for f in listing if f.endswith('.png')])`

  predicate EndsWith(s: string, suffix: string)
  {
    |suffix| <= |s| && s[|s| - |suffix|..] == suffix
  }

  /** The names of the listing that end in ".png", in listing order. */
  function PngNames(listing: seq<string>): (names: seq<string>)
    ensures forall f :: f in names <==> f in listing && EndsWith(f, PNG_SUFFIX)
    ensures multiset(names) <= multiset(listing)
  {
    if listing == [] then []
    else
      var rest := PngNames(listing[1..]);
      assert listing == [listing[0]] + listing[1..];
      if EndsWith(listing[0], PNG_SUFFIX) then [listing[0]] + rest else rest
  }

  /** Python's string order: lexicographic by code point, a prefix first. */
  predicate LexLe(a: string, b: string)
  {
    a == [] || (b != [] && (a[0] < b[0] || (a[0] == b[0] && LexLe(a[1..], b[1..]))))
  }

  lemma {:induction false} LexLeTotal(a: string, b: string)
    ensures LexLe(a, b) || LexLe(b, a)
  {
    if a != [] && b != [] && a[0] == b[0] {
      LexLeTotal(a[1..], b[1..]);
    }
  }

  lemma {:induction false} LexLeAntisymmetric(a: string, b: string)
    requires LexLe(a, b) && LexLe(b, a)
    ensures a == b
  {
    if a != [] && b != [] {
      LexLeAntisymmetric(a[1..], b[1..]);
      assert a == [a[0]] + a[1..] && b == [b[0]] + b[1..];
    }
  }

  predicate Sorted(s: seq<string>)
  {
    forall i :: 0 <= i < |s| - 1 ==> LexLe(s[i], s[i + 1])
  }

  /** Inserts a name into a sorted list before the first name not below it. */
  function Insert(x: string, s: seq<string>): (r: seq<string>)
    ensures multiset(r) == multiset(s) + multiset{x}
    ensures |r| == |s| + 1
    ensures r[0] == x || (s != [] && r[0] == s[0])
  {
    if s == [] then [x]
    else if LexLe(x, s[0]) then [x] + s
    else
      assert s == [s[0]] + s[1..];
      [s[0]] + Insert(x, s[1..])
  }

  lemma {:induction false} InsertSorted(x: string, s: seq<string>)
    requires Sorted(s)
    ensures Sorted(Insert(x, s))
  {
    if s != [] && !LexLe(x, s[0]) {
      LexLeTotal(x, s[0]);
      InsertSorted(x, s[1..]);
    }
  }

  /** The names in ascending order. */
  function SortNames(s: seq<string>): (r: seq<string>)
    ensures multiset(r) == multiset(s)
  {
    if s == [] then []
    else
      assert s == [s[0]] + s[1..];
      Insert(s[0], SortNames(s[1..]))
  }

  lemma {:induction false} SortNamesSorted(s: seq<string>)
    ensures Sorted(SortNames(s))
  {
    if s != [] {
      SortNamesSorted(s[1..]);
      InsertSorted(s[0], SortNames(s[1..]));
    }
  }

  /** The frame files, in the order their frames are packed. */
  function SelectFrames(listing: seq<string>): (files: seq<string>)
  {
    SortNames(PngNames(listing))
  }

  /** The selected files are exactly the ".png" names of the listing, each as
      often as it is listed, in ascending name order. */
  lemma SelectFramesSpec(listing: seq<string>)
    ensures Sorted(SelectFrames(listing))
    ensures multiset(SelectFrames(listing)) == multiset(PngNames(listing))
    ensures forall f :: f in SelectFrames(listing) <==> f in listing && EndsWith(f, PNG_SUFFIX)
    ensures SelectFrames(listing) == [] <==> forall f :: f in listing ==> !EndsWith(f, PNG_SUFFIX)
  {
    var names := PngNames(listing);
    SortNamesSorted(names);
    assert forall f :: f in SelectFrames(listing) <==> f in multiset(SelectFrames(listing));
    assert forall f :: f in names <==> f in multiset(names);
  }

  /** Sorting determines the order: two sorted lists with the same names are equal. */
  lemma {:induction false} SortedUnique(s: seq<string>, t: seq<string>)
    requires Sorted(s) && Sorted(t) && multiset(s) == multiset(t)
    ensures s == t
  {
    if s != [] {
      assert |t| == |s| by { assert |multiset(t)| == |multiset(s)|; }
      assert s[0] == t[0] by {
        assert s[0] in multiset(t) && t[0] in multiset(s);
        SortedHeadIsLeast(s, t[0]);
        SortedHeadIsLeast(t, s[0]);
        LexLeAntisymmetric(s[0], t[0]);
      }
      MultisetOfTail(s);
      MultisetOfTail(t);
      SortedTail(s);
      SortedTail(t);
      SortedUnique(s[1..], t[1..]);
      forall i | 0 < i < |s|
        ensures s[i] == t[i]
      {
        assert s[i] == s[1..][i - 1] && t[i] == t[1..][i - 1];
      }
    }
  }

  lemma MultisetOfTail(s: seq<string>)
    requires s != []
    ensures multiset(s[1..]) == multiset(s) - multiset{s[0]}
  {
    assert s == [s[0]] + s[1..];
  }

  lemma SortedTail(s: seq<string>)
    requires s != [] && Sorted(s)
    ensures Sorted(s[1..])
  {
    forall i | 0 <= i < |s| - 2
      ensures LexLe(s[1..][i], s[1..][i + 1])
    {
      assert s[1..][i] == s[i + 1] && s[1..][i + 1] == s[i + 2];
    }
  }

  lemma {:induction false} SortedHeadIsLeast(s: seq<string>, x: string)
    requires Sorted(s) && x in multiset(s)
    ensures LexLe(s[0], x)
  {
    if s[0] != x {
      assert s == [s[0]] + s[1..];
      assert x in multiset(s[1..]);
      SortedHeadIsLeast(s[1..], x);
      LexLeTransitive(s[0], s[1], x);
    } else {
      LexLeReflexive(x);
    }
  }

  lemma {:induction false} LexLeReflexive(a: string)
    ensures LexLe(a, a)
  {
    if a != [] { LexLeReflexive(a[1..]); }
  }

  lemma {:induction false} LexLeTransitive(a: string, b: string, c: string)
    requires LexLe(a, b) && LexLe(b, c)
    ensures LexLe(a, c)
  {
    if a != [] && b != [] && c != [] && a[0] == b[0] && b[0] == c[0] {
      LexLeTransitive(a[1..], b[1..], c[1..]);
    }
  }

  // -------------------------------------------------------------------------
  // Grid layout

  /** `rows = (n + cols - 1) // cols`. */
  function Rows(n: nat): (rows: nat)
    ensures n >= 1 ==> (rows - 1) * COLS < n <= rows * COLS
    ensures n == 0 ==> rows == 0
  {
    (n + COLS - 1) / COLS
  }

  /** The row count is the smallest one that fits every frame. */
  lemma RowsIsCeiling(n: nat, r: nat)
    requires n <= r * COLS
    ensures Rows(n) <= r
  {
  }

  /** Top-left corner of cell i: `((i % cols) * 87, (i // cols) * 87)`. */
  function CellX(i: nat): nat { (i % COLS) * TANK_WIDTH }
  function CellY(i: nat): nat { (i / COLS) * TANK_HEIGHT }

  /** The cell that pixel (x, y) of the sheet belongs to. */
  function CellAt(y: nat, x: nat): nat
  {
    (y / TANK_HEIGHT) * COLS + x / TANK_WIDTH
  }

  predicate InCell(i: nat, y: nat, x: nat)
  {
    CellX(i) <= x < CellX(i) + TANK_WIDTH && CellY(i) <= y < CellY(i) + TANK_HEIGHT
  }

  /** A pixel of a 4-column sheet lies in cell i exactly when CellAt names i,
      and then its offset inside the cell is its position modulo the tile size. */
  lemma CellAtIff(i: nat, y: nat, x: nat)
    requires x < COLS * TANK_WIDTH
    ensures InCell(i, y, x) <==> CellAt(y, x) == i
    ensures InCell(i, y, x) ==> y % TANK_HEIGHT == y - CellY(i) && x % TANK_WIDTH == x - CellX(i)
  {
    var q, r := i / COLS, i % COLS;
    assert i == q * COLS + r;
    if InCell(i, y, x) {
      DivModTile(y, q, y - CellY(i));
      DivModTile(x, r, x - CellX(i));
    }
    if CellAt(y, x) == i {
      var yq, xq := y / TANK_HEIGHT, x / TANK_WIDTH;
      assert xq < COLS;
      DivModCols(i, yq, xq);
    }
  }

  /** Division by the tile size has a unique quotient and remainder. */
  lemma DivModTile(a: nat, q: nat, r: nat)
    requires r < TANK_WIDTH && a == q * TANK_WIDTH + r
    ensures a / TANK_WIDTH == q && a % TANK_WIDTH == r
  {
  }

  lemma DivModCols(a: nat, q: nat, r: nat)
    requires r < COLS && a == q * COLS + r
    ensures a / COLS == q && a % COLS == r
  {
  }

  /** Cell i of a sheet of Rows(n) rows lies inside the sheet for every i < n. */
  lemma CellInsideSheet(n: nat, i: nat)
    requires i < n
    ensures CellX(i) + TANK_WIDTH <= COLS * TANK_WIDTH
    ensures CellY(i) + TANK_HEIGHT <= Rows(n) * TANK_HEIGHT
  {
    assert i / COLS < Rows(n) by {
      assert (i / COLS) * COLS <= i;
    }
  }

  /** Different cells share no pixel. */
  lemma CellsDisjoint(i: nat, j: nat, y: nat, x: nat)
    requires i != j
    ensures !(InCell(i, y, x) && InCell(j, y, x))
  {
    if InCell(i, y, x) && InCell(j, y, x) {
      assert x < COLS * TANK_WIDTH;
      CellAtIff(i, y, x);
      CellAtIff(j, y, x);
    }
  }

  /** Every pixel of the sheet lies in some cell below Rows(n) * COLS. */
  lemma CellsCoverSheet(n: nat, y: nat, x: nat)
    requires y < Rows(n) * TANK_HEIGHT && x < COLS * TANK_WIDTH
    ensures CellAt(y, x) < Rows(n) * COLS && InCell(CellAt(y, x), y, x)
  {
    CellAtIff(CellAt(y, x), y, x);
  }

  /** The pixel at (x, y) of a 4-column sheet once the first k tiles are pasted. */
  function SheetPixel(tiles: seq<Tile>, k: nat, y: nat, x: nat): Rgba
    requires x < COLS * TANK_WIDTH && k <= |tiles|
  {
    var i := CellAt(y, x);
    if i < k then tiles[i].px[y % TANK_HEIGHT][x % TANK_WIDTH] else TRANSPARENT
  }

  /** Tile i appears whole in its cell. */
  lemma TileAppearsInItsCell(tiles: seq<Tile>, i: nat, dy: nat, dx: nat)
    requires i < |tiles| && dy < TANK_HEIGHT && dx < TANK_WIDTH
    ensures CellX(i) + dx < COLS * TANK_WIDTH
    ensures SheetPixel(tiles, |tiles|, CellY(i) + dy, CellX(i) + dx) == tiles[i].px[dy][dx]
  {
    CellAtIff(i, CellY(i) + dy, CellX(i) + dx);
  }

  /** Pixels of cells with no frame keep the transparent fill. */
  lemma UnusedCellsTransparent(tiles: seq<Tile>, y: nat, x: nat)
    requires x < COLS * TANK_WIDTH && CellAt(y, x) >= |tiles|
    ensures SheetPixel(tiles, |tiles|, y, x) == TRANSPARENT
  {
  }

  /** The layout facts the script reports. */
  datatype Layout = Layout(frames: nat, tileWidth: nat, tileHeight: nat, cols: nat, rows: nat,
                           sheetWidth: nat, sheetHeight: nat)

  function LayoutFor(n: nat): (l: Layout)
    ensures l.sheetWidth == l.cols * l.tileWidth && l.sheetHeight == l.rows * l.tileHeight
    ensures n >= 1 ==> l.frames <= l.rows * l.cols < l.frames + l.cols
  {
    Layout(n, TANK_WIDTH, TANK_HEIGHT, COLS, Rows(n), COLS * TANK_WIDTH, Rows(n) * TANK_HEIGHT)
  }

  /** Ten frames: three rows on a 348 by 261 sheet; the tenth frame
      (index 9) sits at (87, 174). */
  lemma TenFrameLayout()
    ensures LayoutFor(10) == Layout(10, 87, 87, 4, 3, 348, 261)
    ensures CellX(0) == 0 && CellY(0) == 0
    ensures CellX(4) == 0 && CellY(4) == 87
    ensures CellX(8) == 0 && CellY(8) == 174
    ensures CellX(9) == 87 && CellY(9) == 174
    ensures CellAt(174, 174) == 10 && CellAt(174, 261) == 11
  {
  }

  /** The game reads this sheet through a 4 by 4 atlas (its birth animation
      plays frames 0..12): each of the atlas's 16 frames lies in a row below 4. */
  lemma AtlasFramesInFourRows(i: nat)
    requires i < 16
    ensures i / COLS < 4 && CellY(i) + TANK_HEIGHT <= 4 * TANK_HEIGHT
  {
  }

  // -------------------------------------------------------------------------
  // The packer's steps

  /** An RGBA canvas; `pixels[y, x]` is the pixel in column x of row y. */
  class Canvas {
    const width: nat
    const height: nat
    const pixels: array2<Rgba>

    ghost predicate Valid()
      reads this
    {
      pixels.Length0 == height && pixels.Length1 == width
    }

    /** `Image.new('RGBA', (width, height))`: a fully transparent canvas. */
    constructor (w: nat, h: nat)
      ensures Valid() && width == w && height == h && fresh(pixels)
      ensures forall y, x :: 0 <= y < h && 0 <= x < w ==> pixels[y, x] == TRANSPARENT
    {
      width, height := w, h;
      pixels := new Rgba[h, w]((_, _) => TRANSPARENT);
    }

    /** `paste(img, (x0, y0))`: copies the image over the canvas with its
        top-left corner at (x0, y0), alpha included; what falls outside the
        canvas is clipped. */
    method Paste(img: Image, x0: nat, y0: nat)
      requires Valid() && WellFormed(img)
      modifies pixels
      ensures forall y, x :: 0 <= y < height && 0 <= x < width ==>
        pixels[y, x] == (if x0 <= x < x0 + img.width && y0 <= y < y0 + img.height
                         then img.px[y - y0][x - x0] else old(pixels[y, x]))
    {
      var w := if x0 >= width then 0 else if x0 + img.width <= width then img.width else width - x0;
      var h := if y0 >= height then 0 else if y0 + img.height <= height then img.height else height - y0;
      var j := 0;
      while j < h
        invariant 0 <= j <= h
        invariant forall y, x :: 0 <= y < height && 0 <= x < width ==>
          pixels[y, x] == (if x0 <= x < x0 + img.width && y0 <= y < y0 + j
                           then img.px[y - y0][x - x0] else old(pixels[y, x]))
      {
        var i := 0;
        while i < w
          invariant 0 <= i <= w
          invariant forall y, x :: 0 <= y < height && 0 <= x < width ==>
            pixels[y, x] == (if x0 <= x < x0 + img.width && (y0 <= y < y0 + j || (y == y0 + j && x < x0 + i))
                             then img.px[y - y0][x - x0] else old(pixels[y, x]))
        {
          pixels[y0 + j, x0 + i] := img.px[j][i];
          i := i + 1;
        }
        j := j + 1;
      }
    }
  }

  /** How a run ends: no frame file, a file that does not decode (the
      exception ends the run before anything is written), or a saved sheet. */
  datatype Outcome =
    | NoPngFiles
    | DecodeFailed(file: string)
    | Saved(sheet: Canvas, layout: Layout)

  /** The frames the resize loop produces when every file decodes. */
  function Resized(files: seq<string>, load: string -> Option<Image>, resize: Image -> Tile): (tiles: seq<Tile>)
    requires forall k :: 0 <= k < |files| ==> load(files[k]).Some?
    ensures |tiles| == |files|
  {
    seq(|files|, k requires 0 <= k < |files| => resize(load(files[k]).value))
  }

  /** The resize loop: each file is decoded and resized, in order; the first
      file that does not decode stops the loop. */
  method ResizeFrames(files: seq<string>, load: string -> Option<Image>, resize: Image -> Tile)
    returns (frames: seq<Tile>, failed: Option<string>)
    ensures failed == None <==> forall k :: 0 <= k < |files| ==> load(files[k]).Some?
    ensures failed == None ==>
      |frames| == |files| && forall k :: 0 <= k < |files| ==> frames[k] == resize(load(files[k]).value)
    ensures failed.Some? ==>
      exists k :: 0 <= k < |files| && load(files[k]) == None && failed.value == files[k] &&
        forall m :: 0 <= m < k ==> load(files[m]).Some?
  {
    frames := [];
    var k := 0;
    while k < |files|
      invariant 0 <= k <= |files| && |frames| == k
      invariant forall m :: 0 <= m < k ==> load(files[m]).Some? && frames[m] == resize(load(files[m]).value)
    {
      var img := load(files[k]);
      if img == None {
        return frames, Some(files[k]);
      }
      frames := frames + [resize(img.value)];
      k := k + 1;
    }
    failed := None;
  }

  /** Pastes tile i at the top-left corner of cell i, for every i in order. */
  method PasteAll(canvas: Canvas, tiles: seq<Tile>)
    requires canvas.Valid() && canvas.width == COLS * TANK_WIDTH
    requires canvas.height == Rows(|tiles|) * TANK_HEIGHT
    requires forall y, x :: 0 <= y < canvas.height && 0 <= x < canvas.width ==> canvas.pixels[y, x] == TRANSPARENT
    modifies canvas.pixels
    ensures forall y, x :: 0 <= y < canvas.height && 0 <= x < canvas.width ==>
      canvas.pixels[y, x] == SheetPixel(tiles, |tiles|, y, x)
  {
    var idx := 0;
    while idx < |tiles|
      invariant 0 <= idx <= |tiles|
      invariant forall y, x :: 0 <= y < canvas.height && 0 <= x < canvas.width ==>
        canvas.pixels[y, x] == SheetPixel(tiles, idx, y, x)
    {
      canvas.Paste(tiles[idx], (idx % COLS) * TANK_WIDTH, (idx / COLS) * TANK_HEIGHT);
      forall y, x | 0 <= y < canvas.height && 0 <= x < canvas.width
        ensures canvas.pixels[y, x] == SheetPixel(tiles, idx + 1, y, x)
      {
        CellAtIff(idx, y, x);
      }
      idx := idx + 1;
    }
  }

  /** `process_images`: select, resize and pack the frames of a directory listing. */
  method ProcessImages(listing: seq<string>, load: string -> Option<Image>, resize: Image -> Tile)
    returns (outcome: Outcome)
    ensures outcome == NoPngFiles <==> SelectFrames(listing) == []
    ensures outcome.DecodeFailed? ==>
      var files := SelectFrames(listing);
      exists k :: 0 <= k < |files| && files[k] == outcome.file && load(files[k]) == None &&
        forall m :: 0 <= m < k ==> load(files[m]).Some?
    ensures outcome.Saved? ==>
      var files := SelectFrames(listing);
      (forall k :: 0 <= k < |files| ==> load(files[k]).Some?) &&
      fresh(outcome.sheet) && fresh(outcome.sheet.pixels) && outcome.sheet.Valid() &&
      outcome.layout == LayoutFor(|files|) &&
      outcome.sheet.width == outcome.layout.sheetWidth &&
      outcome.sheet.height == outcome.layout.sheetHeight &&
      forall y, x :: 0 <= y < outcome.sheet.height && 0 <= x < outcome.sheet.width ==>
        outcome.sheet.pixels[y, x] == SheetPixel(Resized(files, load, resize), |files|, y, x)
  {
    var files := SelectFrames(listing);
    if files == [] {
      return NoPngFiles;
    }
    var frames, failed := ResizeFrames(files, load, resize);
    if failed.Some? {
      return DecodeFailed(failed.value);
    }
    var n := |frames|;
    var rows := (n + COLS - 1) / COLS;
    var canvas := new Canvas(COLS * TANK_WIDTH, rows * TANK_HEIGHT);
    PasteAll(canvas, frames);
    outcome := Saved(canvas, LayoutFor(n));
    assert frames == Resized(files, load, resize);
  }
}
