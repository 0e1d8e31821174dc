/**
 * The level loader: a grid of characters, one string per row, becomes the
 * level's solid tiles, enemies, collectibles, goal, player spawn and pixel
 * size. `ParseLevel` says declaratively what the grid yields; `LoadLevel`
 * is the row-major scan with its nested loops, proved to agree with it.
 */
module Level {
  import opened Geometry
  import opened Config
  import opened Wrappers
  import opened Motion
  import opened Entities

  /** A grid position: column within its row, and row. */
  datatype Cell = Cell(col: nat, row: nat)

  predicate RowMajorBefore(a: Cell, b: Cell) {
    a.row < b.row || (a.row == b.row && a.col < b.col)
  }

  /** The cells of one row that hold `ch`, left to right. */
  function LineMarks(line: string, row: nat, ch: char): seq<Cell>
    decreases |line|
  {
    if line == [] then []
    else LineMarks(line[..|line| - 1], row, ch) +
         (if line[|line| - 1] == ch then [Cell(|line| - 1, row)] else [])
  }

  /** The cells of the grid that hold `ch`, in row-major order. */
  function Marks(lines: seq<string>, ch: char): seq<Cell>
    decreases |lines|
  {
    if lines == [] then []
    else Marks(lines[..|lines| - 1], ch) + LineMarks(lines[|lines| - 1], |lines| - 1, ch)
  }

  /** How many times `ch` occurs in the grid. */
  function Occurrences(lines: seq<string>, ch: char): nat
    decreases |lines|
  {
    if lines == [] then 0
    else Occurrences(lines[..|lines| - 1], ch) + multiset(lines[|lines| - 1])[ch]
  }

  function Last<A>(s: seq<A>): A
    requires s != []
  {
    s[|s| - 1]
  }

  /** What the level holds once loaded, with enemies given by where they spawn. */
  datatype Layout = Layout(
    solids: seq<Rect>,
    enemySpawns: seq<(int, int)>,
    collectibles: seq<Collectible>,
    goal: Goal,
    playerSpawn: (int, int),
    sizePx: (int, int))

  datatype LevelError = EmptyLevel

  function TileRect(c: Cell, tile: int): Rect {
    Rect(c.col * tile, c.row * tile, tile, tile)
  }

  function TileCorner(c: Cell, tile: int): (int, int) {
    (c.col * tile, c.row * tile)
  }

  /** A 16 by 16 pickup inset by 8 pixels into its tile, worth one point. */
  function CoinAt(c: Cell, tile: int): Collectible {
    Collectible(Rect(c.col * tile + 8, c.row * tile + 8, 16, 16), 1, false)
  }

  /** The goal is one tile wide and two tall, its lower tile on the marker. */
  function GoalAt(c: Cell, tile: int): Goal {
    Goal(Rect(c.col * tile, c.row * tile - tile, tile, tile * 2))
  }

  /** The player spawns one tile above its marker. */
  function SpawnAt(c: Cell, tile: int): (int, int) {
    (c.col * tile, c.row * tile - tile)
  }

  function DefaultGoal(tile: int): Goal {
    Goal(Rect(0, 0, tile, tile * 2))
  }

  function DefaultSpawn(tile: int): (int, int) {
    (tile, tile)
  }

  function TileRects(m: seq<Cell>, tile: int): (r: seq<Rect>)
    ensures |r| == |m| && forall i :: 0 <= i < |m| ==> r[i] == TileRect(m[i], tile)
    decreases |m|
  {
    if m == [] then [] else TileRects(m[..|m| - 1], tile) + [TileRect(Last(m), tile)]
  }

  function TileCorners(m: seq<Cell>, tile: int): (r: seq<(int, int)>)
    ensures |r| == |m| && forall i :: 0 <= i < |m| ==> r[i] == TileCorner(m[i], tile)
    decreases |m|
  {
    if m == [] then [] else TileCorners(m[..|m| - 1], tile) + [TileCorner(Last(m), tile)]
  }

  function Coins(m: seq<Cell>, tile: int): (r: seq<Collectible>)
    ensures |r| == |m| && forall i :: 0 <= i < |m| ==> r[i] == CoinAt(m[i], tile)
    decreases |m|
  {
    if m == [] then [] else Coins(m[..|m| - 1], tile) + [CoinAt(Last(m), tile)]
  }

  /** What scanning `grid` yields; the last `P` and the last `G` in row-major order win. */
  function Scanned(grid: seq<string>, tile: int, sizePx: (int, int)): Layout {
    var ps := Marks(grid, 'P');
    var gs := Marks(grid, 'G');
    Layout(
      TileRects(Marks(grid, '#'), tile),
      TileCorners(Marks(grid, 'E'), tile),
      Coins(Marks(grid, 'C'), tile),
      if gs == [] then DefaultGoal(tile) else GoalAt(Last(gs), tile),
      if ps == [] then DefaultSpawn(tile) else SpawnAt(Last(ps), tile),
      sizePx)
  }

  /** What one more scanned character `ch` at cell `c` does to the layout so far. */
  function Extend(l: Layout, c: Cell, ch: char, tile: int): Layout {
    if ch == '#' then l.(solids := l.solids + [TileRect(c, tile)])
    else if ch == 'P' then l.(playerSpawn := SpawnAt(c, tile))
    else if ch == 'E' then l.(enemySpawns := l.enemySpawns + [TileCorner(c, tile)])
    else if ch == 'C' then l.(collectibles := l.collectibles + [CoinAt(c, tile)])
    else if ch == 'G' then l.(goal := GoalAt(c, tile))
    else l
  }

  /** Nothing scanned yet: no tiles, the default goal and spawn. */
  function Unscanned(tile: int): Layout {
    Layout([], [], [], DefaultGoal(tile), DefaultSpawn(tile), (0, 0))
  }

  /** The layout the scan has built after rows `0..row-1` and the first `col` characters of row `row`. */
  function ScanUpTo(lines: seq<string>, row: nat, col: nat, tile: int): Layout
    requires row <= |lines|
    requires row < |lines| ==> col <= |lines[row]|
    requires row == |lines| ==> col == 0
    decreases row, col
  {
    if col > 0 then Extend(ScanUpTo(lines, row, col - 1, tile), Cell(col - 1, row), lines[row][col - 1], tile)
    else if row == 0 then Unscanned(tile)
    else ScanUpTo(lines, row - 1, |lines[row - 1]|, tile)
  }

  /** The length of the longest row. */
  function MaxWidth(lines: seq<string>): (w: nat)
    requires lines != []
    ensures forall i :: 0 <= i < |lines| ==> |lines[i]| <= w
    ensures exists i :: 0 <= i < |lines| && |lines[i]| == w
    decreases |lines|
  {
    if |lines| == 1 then |lines[0]|
    else
      var rest := MaxWidth(lines[1..]);
      assert forall i :: 1 <= i < |lines| ==> lines[i] == lines[1..][i - 1];
      if |lines[0]| < rest then rest else |lines[0]|
  }

  /**
   * `load_level` over the lines of the level text, as the row-major scan;
   * an empty text has no longest line.
   */
  function ParseLevel(lines: seq<string>, tile: int): (r: Result<Layout, LevelError>)
    ensures r.Failure? <==> lines == []
  {
    if lines == [] then Failure(EmptyLevel)
    else Success(ScanUpTo(lines, |lines|, 0, tile).(sizePx := (MaxWidth(lines) * tile, |lines| * tile)))
  }

  // ---------------------------------------------------------------------------
  // What Marks means
  // ---------------------------------------------------------------------------

  lemma {:induction false} LineMarksExactly(line: string, row: nat, ch: char)
    ensures forall c :: c in LineMarks(line, row, ch) <==>
              c.row == row && c.col < |line| && line[c.col] == ch
    ensures forall i, j :: 0 <= i < j < |LineMarks(line, row, ch)| ==>
              LineMarks(line, row, ch)[i].col < LineMarks(line, row, ch)[j].col
    ensures |LineMarks(line, row, ch)| == multiset(line)[ch]
    decreases |line|
  {
    if line != [] {
      var n := |line| - 1;
      LineMarksExactly(line[..n], row, ch);
      assert line == line[..n] + [line[n]];
      assert multiset(line) == multiset(line[..n]) + multiset{line[n]} by {
        calc {
          multiset(line);
          multiset(line[..n] + [line[n]]);
          multiset(line[..n]) + multiset([line[n]]);
        }
      }
      forall c ensures c in LineMarks(line, row, ch) <==>
                       c.row == row && c.col < |line| && line[c.col] == ch {
        if c.col < n {
          assert line[..n][c.col] == line[c.col];
        }
      }
    }
  }

  /**
   * `Marks` lists exactly the cells holding `ch` (a position past the end
   * of a short row holds nothing), each once, in row-major order.
   */
  lemma {:induction false} MarksExactly(lines: seq<string>, ch: char)
    ensures forall c :: c in Marks(lines, ch) <==>
              c.row < |lines| && c.col < |lines[c.row]| && lines[c.row][c.col] == ch
    ensures forall i, j :: 0 <= i < j < |Marks(lines, ch)| ==>
              RowMajorBefore(Marks(lines, ch)[i], Marks(lines, ch)[j])
    ensures |Marks(lines, ch)| == Occurrences(lines, ch)
    decreases |lines|
  {
    if lines != [] {
      var n := |lines| - 1;
      var front := Marks(lines[..n], ch);
      var back := LineMarks(lines[n], n, ch);
      MarksExactly(lines[..n], ch);
      LineMarksExactly(lines[n], n, ch);
      assert Marks(lines, ch) == front + back;
      forall c ensures c in Marks(lines, ch) <==>
                       c.row < |lines| && c.col < |lines[c.row]| && lines[c.row][c.col] == ch {
        if c.row < n {
          assert lines[..n][c.row] == lines[c.row];
        }
      }
      forall i, j | 0 <= i < j < |front + back|
        ensures RowMajorBefore((front + back)[i], (front + back)[j])
      {
        if j < |front| {
        } else if i < |front| {
          assert front[i] in front;
          assert back[j - |front|] in back;
        } else {
          assert back[i - |front|] in back;
          assert back[j - |front|] in back;
        }
      }
    }
  }

  // ---------------------------------------------------------------------------
  // The scan builds the layout
  // ---------------------------------------------------------------------------

  /** The first `row` lines in full and the first `col` characters of line `row`. */
  function Prefix(lines: seq<string>, row: nat, col: nat): seq<string>
    requires row < |lines| && col <= |lines[row]|
  {
    lines[..row] + [lines[row][..col]]
  }

  lemma MarksPush(grid: seq<string>, line: string, ch: char)
    ensures Marks(grid + [line], ch) == Marks(grid, ch) + LineMarks(line, |grid|, ch)
  {
    assert (grid + [line])[..|grid|] == grid;
  }

  /** Scanning one more character adds its cell when it holds `ch`, and nothing otherwise. */
  lemma ScanStep(lines: seq<string>, row: nat, col: nat, ch: char)
    requires row < |lines| && col < |lines[row]|
    ensures Marks(Prefix(lines, row, col + 1), ch) ==
            Marks(Prefix(lines, row, col), ch) + (if lines[row][col] == ch then [Cell(col, row)] else [])
  {
    var line := lines[row];
    MarksPush(lines[..row], line[..col], ch);
    MarksPush(lines[..row], line[..col + 1], ch);
    assert line[..col + 1][..col] == line[..col];
  }

  lemma RowStart(lines: seq<string>, row: nat, ch: char)
    requires row < |lines|
    ensures Marks(Prefix(lines, row, 0), ch) == Marks(lines[..row], ch)
  {
    MarksPush(lines[..row], lines[row][..0], ch);
  }

  lemma RowEnd(lines: seq<string>, row: nat)
    requires row < |lines|
    ensures Prefix(lines, row, |lines[row]|) == lines[..row + 1]
  {
    assert lines[row][..|lines[row]|] == lines[row];
  }

  lemma MarksAppend(m: seq<Cell>, c: Cell, tile: int)
    ensures TileRects(m + [c], tile) == TileRects(m, tile) + [TileRect(c, tile)]
    ensures TileCorners(m + [c], tile) == TileCorners(m, tile) + [TileCorner(c, tile)]
    ensures Coins(m + [c], tile) == Coins(m, tile) + [CoinAt(c, tile)]
  {
    assert (m + [c])[..|m|] == m;
  }

  /** Scanning one more character extends the layout by that character alone. */
  lemma AgreesStep(lines: seq<string>, row: nat, col: nat, tile: int)
    requires row < |lines| && col < |lines[row]|
    ensures Scanned(Prefix(lines, row, col + 1), tile, (0, 0)) ==
            Extend(Scanned(Prefix(lines, row, col), tile, (0, 0)), Cell(col, row), lines[row][col], tile)
  {
    var ch := lines[row][col];
    var c := Cell(col, row);
    var pre := Prefix(lines, row, col);
    ScanStep(lines, row, col, '#');
    ScanStep(lines, row, col, 'E');
    ScanStep(lines, row, col, 'C');
    ScanStep(lines, row, col, 'G');
    ScanStep(lines, row, col, 'P');
    MarksAppend(Marks(pre, '#'), c, tile);
    MarksAppend(Marks(pre, 'E'), c, tile);
    MarksAppend(Marks(pre, 'C'), c, tile);
  }

  /** The character-by-character scan builds what `Scanned` describes. */
  lemma {:induction false} ScanUpToScanned(lines: seq<string>, row: nat, col: nat, tile: int)
    requires row <= |lines|
    requires row < |lines| ==> col <= |lines[row]|
    requires row == |lines| ==> col == 0
    ensures row < |lines| ==> ScanUpTo(lines, row, col, tile) == Scanned(Prefix(lines, row, col), tile, (0, 0))
    ensures col == 0 ==> ScanUpTo(lines, row, col, tile) == Scanned(lines[..row], tile, (0, 0))
    decreases row, col
  {
    if col > 0 {
      ScanUpToScanned(lines, row, col - 1, tile);
      AgreesStep(lines, row, col - 1, tile);
    } else if row == 0 {
      assert lines[..0] == [];
      if row < |lines| {
        assert Prefix(lines, 0, 0) == [[]];
        assert Marks([[]], '#') == [] && Marks([[]], 'E') == [] && Marks([[]], 'C') == [];
        assert Marks([[]], 'G') == [] && Marks([[]], 'P') == [];
      }
    } else {
      ScanUpToScanned(lines, row - 1, |lines[row - 1]|, tile);
      RowEnd(lines, row - 1);
      if row < |lines| {
        RowStart(lines, row, '#');
        RowStart(lines, row, 'E');
        RowStart(lines, row, 'C');
        RowStart(lines, row, 'G');
        RowStart(lines, row, 'P');
      }
    }
  }

  /** The scan yields what `Scanned` describes. */
  lemma ParsedIsScanned(lines: seq<string>, tile: int)
    requires lines != []
    ensures ParseLevel(lines, tile).value == Scanned(lines, tile, (MaxWidth(lines) * tile, |lines| * tile))
  {
    ScanUpToScanned(lines, |lines|, 0, tile);
    assert lines[..|lines|] == lines;
  }

  /** A freshly parsed level has nothing collected yet. */
  lemma ParsedUncollected(lines: seq<string>, tile: int)
    requires lines != []
    ensures forall c :: c in ParseLevel(lines, tile).value.collectibles ==> !c.collected
  {
    var size := (MaxWidth(lines) * tile, |lines| * tile);
    ParsedIsScanned(lines, tile);
    ScannedPickups(lines, tile, size);
  }

  // ---------------------------------------------------------------------------
  // Properties of a parsed level
  // ---------------------------------------------------------------------------

  /** Cell `c` of the grid holds `ch`; a position past the end of a short row holds nothing. */
  predicate Holds(lines: seq<string>, c: Cell, ch: char) {
    c.row < |lines| && c.col < |lines[c.row]| && lines[c.row][c.col] == ch
  }

  /** Each `#` yields one tile-sized solid on its cell, and every solid comes from a `#`. */
  lemma ScannedSolids(lines: seq<string>, tile: int, sizePx: (int, int))
    ensures var ss := Scanned(lines, tile, sizePx).solids;
      |ss| == Occurrences(lines, '#') &&
      (forall i :: 0 <= i < |ss| ==> exists c :: Holds(lines, c, '#') && ss[i] == TileRect(c, tile)) &&
      (forall c :: Holds(lines, c, '#') ==> TileRect(c, tile) in ss)
  {
    var ss := Scanned(lines, tile, sizePx).solids;
    var m := Marks(lines, '#');
    MarksExactly(lines, '#');
    forall i | 0 <= i < |ss|
      ensures exists c :: Holds(lines, c, '#') && ss[i] == TileRect(c, tile)
    {
      assert m[i] in m;
    }
    forall c | Holds(lines, c, '#')
      ensures TileRect(c, tile) in ss
    {
      assert c in m;
    }
  }

  /** Each `E` yields one enemy spawn at its tile's corner, and every spawn comes from an `E`. */
  lemma ScannedEnemySpawns(lines: seq<string>, tile: int, sizePx: (int, int))
    ensures var es := Scanned(lines, tile, sizePx).enemySpawns;
      |es| == Occurrences(lines, 'E') &&
      (forall i :: 0 <= i < |es| ==> exists c :: Holds(lines, c, 'E') && es[i] == TileCorner(c, tile)) &&
      (forall c :: Holds(lines, c, 'E') ==> TileCorner(c, tile) in es)
  {
    var es := Scanned(lines, tile, sizePx).enemySpawns;
    var m := Marks(lines, 'E');
    MarksExactly(lines, 'E');
    forall i | 0 <= i < |es|
      ensures exists c :: Holds(lines, c, 'E') && es[i] == TileCorner(c, tile)
    {
      assert m[i] in m;
    }
    forall c | Holds(lines, c, 'E')
      ensures TileCorner(c, tile) in es
    {
      assert c in m;
    }
  }

  /**
   * Each `C` yields one uncollected pickup worth 1, a 16 by 16 box inset 8
   * pixels into its tile, and every pickup comes from a `C`.
   */
  lemma ScannedPickups(lines: seq<string>, tile: int, sizePx: (int, int))
    ensures var cs := Scanned(lines, tile, sizePx).collectibles;
      |cs| == Occurrences(lines, 'C') &&
      (forall i :: 0 <= i < |cs| ==> exists c :: Holds(lines, c, 'C') && cs[i] == CoinAt(c, tile)) &&
      (forall c :: Holds(lines, c, 'C') ==> CoinAt(c, tile) in cs) &&
      (forall i :: 0 <= i < |cs| ==> !cs[i].collected && cs[i].value == 1)
  {
    var cs := Scanned(lines, tile, sizePx).collectibles;
    var m := Marks(lines, 'C');
    MarksExactly(lines, 'C');
    forall i | 0 <= i < |cs|
      ensures exists c :: Holds(lines, c, 'C') && cs[i] == CoinAt(c, tile)
    {
      assert m[i] in m;
    }
    forall c | Holds(lines, c, 'C')
      ensures CoinAt(c, tile) in cs
    {
      assert c in m;
    }
  }

  /**
   * The player spawns one tile above the last `P` in row-major order, or at
   * (tile, tile) when the grid has none.
   */
  lemma SpawnIsLastP(lines: seq<string>, tile: int, sizePx: (int, int))
    ensures var l := Scanned(lines, tile, sizePx);
      (Occurrences(lines, 'P') == 0 ==> l.playerSpawn == DefaultSpawn(tile)) &&
      (Occurrences(lines, 'P') > 0 ==> exists c :: IsLastMark(lines, 'P', c) && l.playerSpawn == SpawnAt(c, tile))
  {
    LastMark(lines, 'P');
    if Occurrences(lines, 'P') > 0 {
      assert IsLastMark(lines, 'P', Last(Marks(lines, 'P')));
    }
  }

  /** The goal stands on the last `G` in row-major order, or at the origin when the grid has none. */
  lemma GoalIsLastG(lines: seq<string>, tile: int, sizePx: (int, int))
    ensures var l := Scanned(lines, tile, sizePx);
      (Occurrences(lines, 'G') == 0 ==> l.goal == DefaultGoal(tile)) &&
      (Occurrences(lines, 'G') > 0 ==> exists c :: IsLastMark(lines, 'G', c) && l.goal == GoalAt(c, tile))
  {
    LastMark(lines, 'G');
    if Occurrences(lines, 'G') > 0 {
      assert IsLastMark(lines, 'G', Last(Marks(lines, 'G')));
    }
  }

  /** Cell `c` holds `ch`, and every other cell holding `ch` comes before it in row-major order. */
  ghost predicate IsLastMark(lines: seq<string>, ch: char, c: Cell) {
    Holds(lines, c, ch) && forall d :: Holds(lines, d, ch) && d != c ==> RowMajorBefore(d, c)
  }

  /** The last of the `ch` cells comes after every other `ch` cell. */
  lemma LastMark(lines: seq<string>, ch: char)
    ensures |Marks(lines, ch)| == Occurrences(lines, ch)
    ensures Occurrences(lines, ch) > 0 ==> IsLastMark(lines, ch, Last(Marks(lines, ch)))
  {
    MarksExactly(lines, ch);
    var m := Marks(lines, ch);
    if Occurrences(lines, ch) > 0 {
      var c := Last(m);
      assert c in m;
      forall d | Holds(lines, d, ch) && d != c
        ensures RowMajorBefore(d, c)
      {
        assert d in m;
        var i :| 0 <= i < |m| && m[i] == d;
      }
    }
  }

  lemma MulMono(a: int, b: int, t: int)
    requires a <= b && 0 <= t
    ensures a * t <= b * t
  {
    assert b * t - a * t == (b - a) * t;
  }

  /** A tile in column `col` < `width` and row `row` < `height` lies inside `width` by `height` tiles. */
  lemma TileInside(c: Cell, width: nat, height: nat, tile: int)
    requires c.col < width && c.row < height && 0 < tile
    ensures var s := TileRect(c, tile);
      0 <= s.Left() && s.Right() <= width * tile && 0 <= s.Top() && s.Bottom() <= height * tile
  {
    MulMono(0, c.col, tile);
    MulMono(0, c.row, tile);
    MulMono(c.col + 1, width, tile);
    MulMono(c.row + 1, height, tile);
    assert (c.col + 1) * tile == c.col * tile + tile;
    assert (c.row + 1) * tile == c.row * tile + tile;
  }

  /** Every solid tile lies inside the level's pixel size. */
  lemma SolidsInsideLevel(lines: seq<string>, tile: int)
    requires lines != [] && 0 < tile
    ensures var l := ParseLevel(lines, tile).value;
      forall s :: s in l.solids ==>
        0 <= s.Left() && s.Right() <= l.sizePx.0 && 0 <= s.Top() && s.Bottom() <= l.sizePx.1
  {
    ParsedIsScanned(lines, tile);
    var l := ParseLevel(lines, tile).value;
    var m := Marks(lines, '#');
    MarksExactly(lines, '#');
    forall s | s in l.solids
      ensures 0 <= s.Left() && s.Right() <= l.sizePx.0 && 0 <= s.Top() && s.Bottom() <= l.sizePx.1
    {
      var i :| 0 <= i < |l.solids| && l.solids[i] == s;
      var c := m[i];
      assert c in m;
      assert s == TileRect(c, tile);
      TileInside(c, MaxWidth(lines), |lines|, tile);
    }
  }

  // ---------------------------------------------------------------------------
  // The scan itself
  // ---------------------------------------------------------------------------

  /** A loaded level; its enemies are objects that later frames update in place. */
  datatype LevelData = LevelData(
    solids: seq<Rect>,
    enemies: seq<Enemy>,
    collectibles: seq<Collectible>,
    goal: Goal,
    playerSpawn: (int, int),
    sizePx: (int, int))

  predicate Distinct(enemies: seq<Enemy>) {
    forall i, j :: 0 <= i < j < |enemies| ==> enemies[i] != enemies[j]
  }

  /** Every enemy stands, freshly spawned, at the corresponding spawn point. */
  ghost predicate SpawnedAt(enemies: seq<Enemy>, spawns: seq<(int, int)>, tile: int)
    reads enemies
  {
    |enemies| == |spawns| &&
    forall i :: 0 <= i < |enemies| ==> enemies[i].State() == SpawnedEnemy(spawns[i], tile)
  }

  /** The scan so far agrees with `layout`, apart from the size. */
  ghost predicate Agrees(layout: Layout, tile: int, solids: seq<Rect>, enemies: seq<Enemy>,
                         collectibles: seq<Collectible>, goalRect: Rect, spawn: (int, int))
    reads enemies
  {
    solids == layout.solids && collectibles == layout.collectibles && Goal(goalRect) == layout.goal &&
    spawn == layout.playerSpawn && SpawnedAt(enemies, layout.enemySpawns, tile)
  }

  /**
   * `load_level` over the lines of the level text: the nested row and column
   * scan appending solids, enemies and pickups and overwriting the spawn and
   * goal, with the same result as `ParseLevel` and a fresh enemy per `E`.
   */
  method LoadLevel(lines: seq<string>, cfg: Constants) returns (r: Result<LevelData, LevelError>)
    ensures r.Failure? <==> lines == []
    ensures r.Success? ==>
      var l := ParseLevel(lines, cfg.tileSize).value;
      r.value.solids == l.solids && r.value.collectibles == l.collectibles &&
      r.value.goal == l.goal && r.value.playerSpawn == l.playerSpawn && r.value.sizePx == l.sizePx &&
      SpawnedAt(r.value.enemies, l.enemySpawns, cfg.tileSize) &&
      Distinct(r.value.enemies) && forall e :: e in r.value.enemies ==> fresh(e)
  {
    if lines == [] {
      return Failure(EmptyLevel);
    }
    var tile := cfg.tileSize;
    var width := MaxWidth(lines);
    var height := |lines|;

    var solids: seq<Rect> := [];
    var enemies: seq<Enemy> := [];
    var collectibles: seq<Collectible> := [];
    var goalRect := Rect(0, 0, tile, tile * 2);
    var playerSpawn := (tile, tile);

    for row := 0 to |lines|
      invariant Agrees(ScanUpTo(lines, row, 0, tile), tile, solids, enemies, collectibles, goalRect, playerSpawn)
      invariant Distinct(enemies) && forall e :: e in enemies ==> fresh(e)
    {
      var line := lines[row];
      for col := 0 to |line|
        invariant Agrees(ScanUpTo(lines, row, col, tile), tile, solids, enemies, collectibles, goalRect, playerSpawn)
        invariant Distinct(enemies) && forall e :: e in enemies ==> fresh(e)
      {
        var ch := line[col];
        var x := col * tile;
        var y := row * tile;
        if ch == '#' {
          solids := solids + [Rect(x, y, tile, tile)];
        } else if ch == 'P' {
          playerSpawn := (x, y - tile);
        } else if ch == 'E' {
          var enemy := new Enemy((x, y), cfg);
          enemies := enemies + [enemy];
        } else if ch == 'C' {
          collectibles := collectibles + [Collectible(Rect(x + 8, y + 8, 16, 16), 1, false)];
        } else if ch == 'G' {
          goalRect := Rect(x, y - tile, tile, tile * 2);
        }
      }
    }
    var sizePx := (width * tile, height * tile);
    return Success(LevelData(solids, enemies, collectibles, Goal(goalRect), playerSpawn, sizePx));
  }
}
