/*
 * The inventory grid (Assets/Code/Scripts/UI/InventoryMenu.cs).
 *
 * Pressing I toggles the menu.  Opening it draws a panel of `count` tiles laid
 * out row by row, `(int)sqrt(count)` tiles to a row, and appends the panel to
 * the component's list of drawn panels; closing it destroys every panel in
 * that list.  GameObjects, their components and the canvas are modelled as the
 * values their properties are set to: a Panel with its Tiles.
 */
module InventoryUI {

  datatype Point = Point(x: real, y: real)

  /** A tile's column and row in the grid. */
  datatype Cell = Cell(x: int, y: int)

  datatype Tile = Tile(name: string, cell: Cell, size: Point, position: Point)

  /** The inventory parent object: its name, rect size, local position and child tiles. */
  datatype Panel = Panel(name: string, size: Point, position: Point, tiles: seq<Tile>)

  /** The serialized dimensions of the menu. */
  datatype Layout = Layout(tileWidth: real, tileHeight: real, tilePad: real, inventoryPad: real)

  const PanelName := "par_InventoryMenu"
  const TilePrefix := "img_Tile_"

  /** Extra height added below the tiles and above the first row. */
  const HeaderHeight: real := 20.0

  /**
   * `(int)Mathf.Sqrt(count)` for a negative count: the square root is NaN, and
   * the conversion of NaN to int gives int.MinValue on x86 and x64.
   */
  const NaNToInt: int := -2147483648

  // ---------------------------------------------------------------------------
  // Grid arithmetic

  /** The integer square root, found by counting up from the root of n - 1. */
  function ISqrt(n: nat): (r: nat)
    ensures r <= n
    ensures 1 <= n ==> 1 <= r
  {
    if n == 0 then 0
    else
      var r := ISqrt(n - 1);
      if (r + 1) * (r + 1) <= n then r + 1 else r
  }

  /** ISqrt(n) is the largest r with r * r <= n. */
  lemma {:induction false} ISqrtIsRoot(n: nat)
    ensures ISqrt(n) * ISqrt(n) <= n < (ISqrt(n) + 1) * (ISqrt(n) + 1)
  {
    if n > 0 {
      ISqrtIsRoot(n - 1);
    }
  }

  /** `(int)Mathf.Sqrt(count)`: the number of tiles in a row. */
  function ColumnCount(count: int): (w: int)
    ensures count >= 0 ==> 0 <= w
    ensures count >= 1 ==> w >= 1
    ensures count < 0 ==> w == NaNToInt
  {
    if count >= 0 then ISqrtIsRoot(count); ISqrt(count) else NaNToInt
  }

  /** The row width is the square root of the count, rounded down. */
  lemma ColumnCountIsRoot(count: nat)
    ensures ColumnCount(count) * ColumnCount(count) <= count
    ensures count < (ColumnCount(count) + 1) * (ColumnCount(count) + 1)
  {
    ISqrtIsRoot(count);
  }

  /** The number of rows the drawing loop fills: `count / width` rounded up. */
  function RowCount(count: int): (h: int)
    ensures count <= 0 ==> h == 0
    ensures count >= 1 ==> h >= 1
  {
    if count <= 0 then 0
    else
      var w := ColumnCount(count);
      CeilingDivision(count, w);
      (count + w - 1) / w
  }

  /** The rows hold all `count` tiles, and the last row holds at least one. */
  lemma RowCountFits(count: int)
    requires count >= 1
    ensures (RowCount(count) - 1) * ColumnCount(count) < count <= RowCount(count) * ColumnCount(count)
  {
    CeilingDivision(count, ColumnCount(count));
  }

  lemma CeilingDivision(c: int, w: int)
    requires 1 <= c && 1 <= w
    ensures var h := (c + w - 1) / w; h >= 1 && (h - 1) * w < c <= h * w
  {
    var q, r := (c + w - 1) / w, (c + w - 1) % w;
    assert c + w - 1 == q * w + r && 0 <= r < w;
    assert (q - 1) * w == q * w - w;
  }

  lemma DivMod(i: int, w: int)
    requires 0 <= i && 0 < w
    ensures (i / w) * w + i % w == i && 0 <= i % w < w && 0 <= i / w
  {
  }

  lemma MultiplyStep(a: int, w: int)
    ensures (a + 1) * w == a * w + w
  {
  }

  lemma MultiplyMonotone(a: int, b: int, w: int)
    requires a <= b && 0 <= w
    ensures a * w <= b * w
  {
    assert b * w - a * w == (b - a) * w;
  }

  /** Euclidean division recovers the row and column of a row-major index. */
  lemma {:induction false} RowMajor(y: int, w: int, x: int)
    requires 0 < w && 0 <= x < w
    ensures (y * w + x) / w == y && (y * w + x) % w == x
  {
    var k := y * w + x;
    var q, r := k / w, k % w;
    assert k == q * w + r && 0 <= r < w;
    assert (q - y) * w == x - r;
    if q > y {
      MultiplyMonotone(1, q - y, w);
    } else if q < y {
      MultiplyMonotone(q - y, -1, w);
    }
  }

  /** The row count is the only row count that fits `count` tiles, `width` to a row. */
  lemma {:induction false} RowCountUnique(count: int, h: int)
    requires count >= 1
    requires (h - 1) * ColumnCount(count) < count <= h * ColumnCount(count)
    ensures h == RowCount(count)
  {
    var w, h' := ColumnCount(count), RowCount(count);
    RowCountFits(count);
    if h < h' {
      MultiplyMonotone(h, h' - 1, w);
    } else if h' < h {
      MultiplyMonotone(h', h - 1, w);
    }
  }

  /** The tile cells in the order the drawing loop creates them: row-major, `width` to a row. */
  function Grid(count: int): (g: seq<Cell>)
    ensures |g| == if count > 0 then count else 0
  {
    var w := ColumnCount(count);
    var n := if count > 0 then count else 0;
    seq(n, (i: int) requires 0 <= i < n => Cell(i % w, i / w))
  }

  /** Each tile's column is within the row width and its row within the row count; row-major order. */
  lemma GridInRange(count: int, i: int)
    requires 0 <= i < |Grid(count)|
    ensures var c := Grid(count)[i];
            0 <= c.x < ColumnCount(count) && 0 <= c.y < RowCount(count) &&
            c.y * ColumnCount(count) + c.x == i
  {
    var w, h := ColumnCount(count), RowCount(count);
    var q, r := i / w, i % w;
    assert Grid(count)[i] == Cell(r, q);
    DivMod(i, w);
    RowCountFits(count);
    if q >= h {
      MultiplyMonotone(h, q, w);
    }
  }

  /** No two tiles share a cell. */
  lemma GridDistinct(count: int, i: int, j: int)
    requires 0 <= i < j < |Grid(count)|
    ensures Grid(count)[i] != Grid(count)[j]
  {
    GridInRange(count, i);
    GridInRange(count, j);
  }

  /** Every row but the last is full: it holds a tile in each of the `width` columns. */
  lemma {:induction false} OnlyLastRowPartial(count: int, x: int, y: int)
    requires count >= 1
    requires 0 <= x < ColumnCount(count) && 0 <= y < RowCount(count) - 1
    ensures y * ColumnCount(count) + x < count
    ensures Grid(count)[y * ColumnCount(count) + x] == Cell(x, y)
  {
    var w, h := ColumnCount(count), RowCount(count);
    RowCountFits(count);
    MultiplyMonotone(y + 1, h - 1, w);
    RowMajor(y, w, x);
  }

  /** Since width * width <= count, the grid is never wider than it is tall. */
  lemma {:induction false} NoWiderThanTall(count: int)
    requires count >= 1
    ensures RowCount(count) >= ColumnCount(count)
  {
    var w, h := ColumnCount(count), RowCount(count);
    ColumnCountIsRoot(count);
    RowCountFits(count);
    if h < w {
      MultiplyMonotone(h, w - 1, w);
      MultiplyStep(w - 1, w);
    }
  }

  // ---------------------------------------------------------------------------
  // Tile names

  function DigitChar(d: int): char
    requires 0 <= d < 10
  {
    ('0' as int + d) as char
  }

  /** C#'s decimal formatting of a non-negative integer. */
  function NatToString(n: nat): (s: string)
    ensures |s| >= 1 && (|s| == 1 <==> n < 10)
    ensures forall k :: 0 <= k < |s| ==> '0' <= s[k] <= '9'
  {
    if n < 10 then [DigitChar(n)] else NatToString(n / 10) + [DigitChar(n % 10)]
  }

  /** C#'s decimal formatting of an integer, as string interpolation uses it. */
  function IntToString(i: int): (s: string)
    ensures |s| >= 1 && (s[0] == '-' <==> i < 0)
    ensures forall k :: 0 <= k < |s| ==> s[k] != '_'
  {
    if i < 0 then "-" + NatToString(-i) else NatToString(i)
  }

  lemma {:induction false} NatToStringInjective(a: nat, b: nat)
    requires NatToString(a) == NatToString(b)
    ensures a == b
    decreases a
  {
    var sa, sb := NatToString(a), NatToString(b);
    if a >= 10 && b >= 10 {
      assert sa[..|sa| - 1] == NatToString(a / 10);
      assert sb[..|sb| - 1] == NatToString(b / 10);
      NatToStringInjective(a / 10, b / 10);
      assert DigitChar(a % 10) == sa[|sa| - 1] == sb[|sb| - 1] == DigitChar(b % 10);
      assert DigitChar(a % 10) as int == '0' as int + a % 10;
      assert DigitChar(b % 10) as int == '0' as int + b % 10;
      assert a == (a / 10) * 10 + a % 10 && b == (b / 10) * 10 + b % 10;
    } else if a < 10 && b < 10 {
      assert DigitChar(a) == sa[0] == sb[0] == DigitChar(b);
      assert DigitChar(a) as int == '0' as int + a && DigitChar(b) as int == '0' as int + b;
    }
  }

  lemma IntToStringInjective(a: int, b: int)
    requires IntToString(a) == IntToString(b)
    ensures a == b
  {
    var sa, sb := IntToString(a), IntToString(b);
    if a < 0 && b < 0 {
      assert NatToString(-a) == sa[1..] == sb[1..] == NatToString(-b);
      NatToStringInjective(-a, -b);
    } else if 0 <= a && 0 <= b {
      NatToStringInjective(a, b);
    }
  }

  /** `img_Tile_{x}_{y}`. */
  function TileName(x: int, y: int): (s: string)
    ensures |TilePrefix| < |s| && s[..|TilePrefix|] == TilePrefix
  {
    TilePrefix + IntToString(x) + "_" + IntToString(y)
  }

  lemma UnderscoreAfter(a: string, b: string)
    ensures (a + "_" + b)[|a|] == '_'
  {
  }

  /** Two strings free of '_' joined by '_' can be split back apart. */
  lemma {:induction false} SplitAtUnderscore(a: string, b: string, c: string, d: string)
    requires forall k :: 0 <= k < |a| ==> a[k] != '_'
    requires forall k :: 0 <= k < |c| ==> c[k] != '_'
    requires a + "_" + b == c + "_" + d
    ensures a == c && b == d
  {
    var s := a + "_" + b;
    if |a| < |c| {
      UnderscoreAfter(a, b);
    } else if |c| < |a| {
      UnderscoreAfter(c, d);
    } else {
      assert a == s[..|a|] == c;
      assert b == s[|a| + 1..] == d;
    }
  }

  /** Dropping the prefix from a tile name leaves `{x}_{y}`. */
  lemma TileNameSuffix(x: int, y: int)
    ensures TileName(x, y)[|TilePrefix|..] == IntToString(x) + "_" + IntToString(y)
  {
    var rest := IntToString(x) + "_" + IntToString(y);
    assert TileName(x, y) == TilePrefix + rest;
  }

  /** Distinct cells get distinct tile names. */
  lemma TileNameInjective(x1: int, y1: int, x2: int, y2: int)
    requires TileName(x1, y1) == TileName(x2, y2)
    ensures x1 == x2 && y1 == y2
  {
    TileNameSuffix(x1, y1);
    TileNameSuffix(x2, y2);
    SplitAtUnderscore(IntToString(x1), IntToString(y1), IntToString(x2), IntToString(y2));
    IntToStringInjective(x1, x2);
    IntToStringInjective(y1, y2);
  }


  // ---------------------------------------------------------------------------
  // Geometry

  /** The position CreateTile gives the tile in column x, row y. */
  function TilePosition(l: Layout, x: int, y: int): (p: Point)
    ensures x == 0 ==> p.x == l.inventoryPad / 2.0 - (l.tileWidth + l.tilePad) / 2.0
    ensures y == 0 ==> p.y == (l.tileHeight + l.tilePad) / 2.0 - l.inventoryPad / 2.0 - HeaderHeight
  {
    Point(((x as real) - 0.5) * (l.tileWidth + l.tilePad) + l.inventoryPad / 2.0,
          ((y as real) - 0.5) * -(l.tileHeight + l.tilePad) - l.inventoryPad / 2.0 - HeaderHeight)
  }

  /** Adjacent columns are one tile pitch apart; adjacent rows one pitch apart, going down. */
  lemma TileSpacing(l: Layout, x: int, y: int)
    ensures TilePosition(l, x + 1, y).x - TilePosition(l, x, y).x == l.tileWidth + l.tilePad
    ensures TilePosition(l, x + 1, y).y == TilePosition(l, x, y).y
    ensures TilePosition(l, x, y + 1).y - TilePosition(l, x, y).y == -(l.tileHeight + l.tilePad)
    ensures TilePosition(l, x, y + 1).x == TilePosition(l, x, y).x
  {
    assert ((x + 1) as real) - 0.5 == ((x as real) - 0.5) + 1.0;
    assert ((y + 1) as real) - 0.5 == ((y as real) - 0.5) + 1.0;
  }

  /** The panel's rect size for a grid of `width` columns and `height` rows. */
  function PanelSize(l: Layout, width: int, height: int): (p: Point)
    ensures width == 0 ==> p.x == l.inventoryPad / 2.0
    ensures height == 0 ==> p.y == l.inventoryPad / 2.0 + HeaderHeight
  {
    Point((width as real) * (l.tileWidth + l.tilePad) + l.inventoryPad / 2.0,
          (height as real) * (l.tileHeight + l.tilePad) + l.inventoryPad / 2.0 + HeaderHeight)
  }

  /** The tile CreateTile makes for column x, row y. */
  function CreateTile(l: Layout, x: int, y: int): (t: Tile)
    ensures t.cell == Cell(x, y) && t.size == Point(l.tileWidth, l.tileHeight)
    ensures |TilePrefix| < |t.name| && t.name[..|TilePrefix|] == TilePrefix
  {
    Tile(TileName(x, y), Cell(x, y), Point(l.tileWidth, l.tileHeight), TilePosition(l, x, y))
  }

  /** The panel DrawMenu produces for `count` tiles at `position`. */
  function MenuPanel(l: Layout, count: int, position: Point): (p: Panel)
    ensures |p.tiles| == |Grid(count)|
    ensures forall i :: 0 <= i < |p.tiles| ==> p.tiles[i].cell == Grid(count)[i]
  {
    var cells := Grid(count);
    Panel(PanelName,
          PanelSize(l, ColumnCount(count), RowCount(count)),
          position,
          seq(|cells|, (i: int) requires 0 <= i < |cells| => CreateTile(l, cells[i].x, cells[i].y)))
  }

  /** Each extra column widens the panel, and each extra row heightens it, by one tile pitch. */
  lemma PanelGrowsByPitch(l: Layout, width: int, height: int)
    ensures PanelSize(l, width + 1, height).x - PanelSize(l, width, height).x == l.tileWidth + l.tilePad
    ensures PanelSize(l, width + 1, height).y == PanelSize(l, width, height).y
    ensures PanelSize(l, width, height + 1).y - PanelSize(l, width, height).y == l.tileHeight + l.tilePad
    ensures PanelSize(l, width, height + 1).x == PanelSize(l, width, height).x
  {
    assert (width + 1) as real == (width as real) + 1.0;
    assert (height + 1) as real == (height as real) + 1.0;
  }

  /** All the tiles of a panel have different names. */
  lemma PanelTileNamesDistinct(l: Layout, count: int, position: Point, i: int, j: int)
    requires 0 <= i < j < |MenuPanel(l, count, position).tiles|
    ensures MenuPanel(l, count, position).tiles[i].name != MenuPanel(l, count, position).tiles[j].name
  {
    var g, tiles := Grid(count), MenuPanel(l, count, position).tiles;
    GridDistinct(count, i, j);
    assert tiles[i].name == TileName(g[i].x, g[i].y);
    assert tiles[j].name == TileName(g[j].x, g[j].y);
    if tiles[i].name == tiles[j].name {
      TileNameInjective(g[i].x, g[i].y, g[j].x, g[j].y);
    }
  }

  /**
   * With no slots the loop never runs: the panel has no tiles and is one
   * header high; a negative count also makes the row width int.MinValue.
   */
  lemma EmptyMenu(l: Layout, count: int, position: Point)
    requires count <= 0
    ensures MenuPanel(l, count, position).tiles == []
    ensures MenuPanel(l, count, position).size.y == l.inventoryPad / 2.0 + HeaderHeight
    ensures count == 0 ==> MenuPanel(l, count, position).size.x == l.inventoryPad / 2.0
    ensures count < 0 ==> MenuPanel(l, count, position).size.x
                          == (NaNToInt as real) * (l.tileWidth + l.tilePad) + l.inventoryPad / 2.0
  {
  }

  // ---------------------------------------------------------------------------
  // The drawing loop

  /**
   * The tiling loop of DrawMenu: fill rows of `width` tiles until `count` runs
   * out, and report the cells in creation order with the grid's dimensions.
   */
  method LayOut(count: int) returns (cells: seq<Cell>, width: int, height: int)
    ensures width == ColumnCount(count)
    ensures height == RowCount(count)
    ensures cells == Grid(count)
  {
    height := 0;
    width := ColumnCount(count);
    cells := [];
    var remaining := count;

    while remaining > 0
      invariant count > 0 ==> width >= 1 && 0 <= remaining <= count && |cells| == count - remaining
      invariant count <= 0 ==> remaining == count && cells == [] && height == 0
      invariant 0 <= height
      invariant height == 0 ==> cells == []
      invariant remaining > 0 ==> |cells| == height * width
      invariant 0 < height ==> (height - 1) * width < |cells| <= height * width
      invariant forall i :: 0 <= i < |cells| ==> cells[i] == Cell(i % width, i / width)
      decreases remaining
    {
      ghost var before := remaining;
      var x := 0;
      while x < width && remaining > 0
        invariant 0 <= x <= width
        invariant remaining == before - x && 0 <= remaining
        invariant |cells| == height * width + x
        invariant |cells| == count - remaining
        invariant forall i :: 0 <= i < |cells| ==> cells[i] == Cell(i % width, i / width)
        decreases width - x
      {
        RowMajor(height, width, x);
        cells := cells + [Cell(x, height)];
        remaining := remaining - 1;
        x := x + 1;
      }
      assert height * width < |cells| <= height * width + width;
      assert (height + 1) * width == height * width + width;
      height := height + 1;
    }

    if count > 0 {
      RowCountUnique(count, height);
    }
  }

  // ---------------------------------------------------------------------------
  // The component

  /** The list positions 0 .. n-1. */
  function Positions(n: nat): (r: set<nat>)
    ensures forall k: nat :: k in r <==> k < n
  {
    if n == 0 then {} else Positions(n - 1) + {n - 1}
  }

  class InventoryMenu {
    /** The serialized slot count and dimensions. */
    const count: int
    const layout: Layout

    var isActive: bool
    /** `_inventoryObject`: every panel drawn so far, in order. */
    var inventoryObject: seq<Panel>
    /** The positions in `inventoryObject` whose GameObject has been destroyed. */
    var destroyed: set<nat>

    ghost predicate Valid()
      reads this
    {
      forall i :: i in destroyed ==> i < |inventoryObject|
    }

    /** Start: an empty list and the menu closed. */
    constructor (count: int, layout: Layout)
      ensures Valid()
      ensures this.count == count && this.layout == layout
      ensures !isActive && inventoryObject == [] && destroyed == {}
    {
      this.count := count;
      this.layout := layout;
      isActive := false;
      inventoryObject := [];
      destroyed := {};
    }

    /** One frame of input: a press of I opens the closed menu or closes the open one. */
    method GetInput(keyDown: bool)
      requires Valid()
      modifies this`isActive, this`inventoryObject, this`destroyed
      ensures Valid()
      ensures isActive == (old(isActive) != keyDown)
      ensures old(inventoryObject) <= inventoryObject
      ensures !keyDown ==> inventoryObject == old(inventoryObject) && destroyed == old(destroyed)
      ensures keyDown && !old(isActive) ==>
                inventoryObject == old(inventoryObject) + [MenuPanel(layout, count, Point(0.0, 0.0))] &&
                destroyed == old(destroyed)
      ensures keyDown && old(isActive) ==>
                inventoryObject == old(inventoryObject) &&
                destroyed == old(destroyed) + Positions(|inventoryObject|)
    {
      if keyDown {
        if !isActive {
          isActive := true;
          DrawMenu(count, Point(0.0, 0.0));
          return;
        }
        isActive := false;
        CloseMenu();
      }
    }

    /** Draw a panel of `count` tiles at `position` and add it to the list. */
    method DrawMenu(count: int, position: Point)
      requires Valid()
      modifies this`inventoryObject
      ensures Valid()
      ensures inventoryObject == old(inventoryObject) + [MenuPanel(layout, count, position)]
    {
      var cells, width, height := LayOut(count);
      var tiles := seq(|cells|, (i: int) requires 0 <= i < |cells| => CreateTile(layout, cells[i].x, cells[i].y));
      var panel := Panel(PanelName, PanelSize(layout, width, height), position, tiles);
      inventoryObject := inventoryObject + [panel];
    }

    /** Destroy every panel in the list; the list itself keeps its entries. */
    method CloseMenu()
      requires Valid()
      modifies this`destroyed
      ensures Valid()
      ensures destroyed == old(destroyed) + Positions(|inventoryObject|)
    {
      var i := 0;
      while i < |inventoryObject|
        invariant 0 <= i <= |inventoryObject|
        invariant destroyed == old(destroyed) + Positions(i)
        invariant Valid()
      {
        destroyed := destroyed + {i};
        i := i + 1;
      }
    }
  }
}
