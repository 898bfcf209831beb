/** The maze: a fixed grid of 31 rows by 28 columns of tiles (pacman.cpp, classes Tile and
    Board). Each tile carries four exit permissions and a "crossed" flag that only the
    renderer reads. */
module Maze {
  import opened Geometry

  /** One tile. `crossed` is `hasCrossed`; `up`, `down`, `left`, `right` are the exit flags. */
  datatype Tile = Tile(crossed: bool, up: bool, down: bool, left: bool, right: bool)

  /** What `Tile::Tile()` builds: uncrossed, no exits. */
  const Blank := Tile(false, false, false, false, false)

  /** Whether a tile lets an entity leave it in direction `d` (`canGoUp` and so on).
      DEFAULT is never an exit, and a tile with no exit permits nothing. */
  predicate Permits(t: Tile, d: Direction)
    ensures Permits(t, d) ==> d != Default
    ensures !t.up && !t.down && !t.left && !t.right ==> !Permits(t, d)
  {
    match d
    case Up => t.up
    case Down => t.down
    case Left => t.left
    case Right => t.right
    case Default => false
  }

  /** `setGoUp`, `setGoDown`, `setGoLeft` and `setGoRight` on a tile value. */
  function WithExit(t: Tile, d: Direction, allow: bool): (r: Tile)
    requires d != Default
    ensures Permits(r, d) == allow
    ensures forall e :: e != d ==> Permits(r, e) == Permits(t, e)
    ensures r.crossed == t.crossed
  {
    match d
    case Up => t.(up := allow)
    case Down => t.(down := allow)
    case Left => t.(left := allow)
    case Right => t.(right := allow)
  }

  predicate HasNoExit(t: Tile)
  {
    !t.up && !t.down && !t.left && !t.right
  }

  /** Setting the crossed flag changes no exit. */
  predicate SameExits(s: Tile, t: Tile)
  {
    s.up == t.up && s.down == t.down && s.left == t.left && s.right == t.right
  }

  /** The only exits that lead off the board are the two ends of the row-14 tunnel, and
      no vertical exit lies in the outermost columns 0 and 27. */
  predicate ExitsInside(t: Tile, i: int, j: int)
  {
    && (t.up ==> i > 0 && 0 < j < 27)
    && (t.down ==> i < 30 && 0 < j < 27)
    && (t.left ==> j > 0 || i == 14)
    && (t.right ==> j < 27 || i == 14)
  }

  predicate InBoard(i: int, j: int)
  {
    0 <= i < 31 && 0 <= j < 28
  }

  /** The board's contents as a value, indexed `[row][column]`. */
  type Grid = seq<seq<Tile>>

  predicate WellSized(g: Grid)
  {
    |g| == 31 && forall i :: 0 <= i < 31 ==> |g[i]| == 28
  }

  function At(g: Grid, i: int, j: int): Tile
    requires WellSized(g) && InBoard(i, j)
  {
    g[i][j]
  }

  /** Rows 0 and 30 are solid wall. */
  predicate Sealed(g: Grid)
    requires WellSized(g)
  {
    forall j :: 0 <= j < 28 ==> HasNoExit(g[0][j]) && HasNoExit(g[30][j])
  }

  predicate Enclosed(g: Grid)
    requires WellSized(g)
  {
    forall i, j :: 0 <= i < 31 && 0 <= j < 28 ==> ExitsInside(g[i][j], i, j)
  }

  /** The board after `updateBoard` has crossed off tile (i, j). */
  function MarkCrossed(g: Grid, i: int, j: int): (r: Grid)
    requires WellSized(g) && InBoard(i, j)
    ensures WellSized(r)
    ensures r[i][j].crossed && SameExits(r[i][j], g[i][j])
    ensures forall a, b :: InBoard(a, b) && (a != i || b != j) ==> r[a][b] == g[a][b]
  {
    g[i := g[i][j := g[i][j].(crossed := true)]]
  }

  /** Crossing off a tile twice is the same as crossing it off once, and crossing off
      never changes an exit, so the board stays sealed and enclosed. */
  lemma MarkCrossedIdempotent(g: Grid, i: int, j: int)
    requires WellSized(g) && InBoard(i, j)
    ensures MarkCrossed(MarkCrossed(g, i, j), i, j) == MarkCrossed(g, i, j)
    ensures forall a, b :: InBoard(a, b) ==> SameExits(MarkCrossed(g, i, j)[a][b], g[a][b])
    ensures Sealed(g) ==> Sealed(MarkCrossed(g, i, j))
    ensures Enclosed(g) ==> Enclosed(MarkCrossed(g, i, j))
  {
    var once := MarkCrossed(g, i, j);
    var twice := MarkCrossed(once, i, j);
    assert once[i][j] == g[i][j].(crossed := true);
    assert twice[i] == once[i];
  }

  /** The tile at (1, 1), where the player spawns: exits Right and Down only. */
  const SpawnCorner := Tile(false, false, true, false, true)

  /** `Board`: the tile array, filled in place by the constructor. */
  class Board {
    const tiles: array2<Tile>

    ghost predicate Shaped()
    {
      tiles.Length0 == 31 && tiles.Length1 == 28
    }

    /** What every board keeps once built: rows 0 and 30 have no exit and no exit leaves
        the grid except through the tunnel. */
    ghost predicate Valid()
      reads tiles
    {
      && Shaped()
      && (forall j :: 0 <= j < 28 ==> HasNoExit(tiles[0, j]) && HasNoExit(tiles[30, j]))
      && (forall i, j :: InBoard(i, j) ==> ExitsInside(tiles[i, j], i, j))
    }

    ghost predicate Uncrossed()
      reads tiles
      requires Shaped()
    {
      forall i, j :: InBoard(i, j) ==> !tiles[i, j].crossed
    }

    /** The board as a value. */
    ghost function Grid(): (g: Grid)
      reads tiles
      requires Shaped()
      ensures WellSized(g)
      ensures forall i, j :: InBoard(i, j) ==> g[i][j] == tiles[i, j]
      ensures Valid() ==> Sealed(g) && Enclosed(g)
    {
      seq(31, i requires 0 <= i < 31 reads tiles =>
        seq(28, j requires 0 <= j < 28 reads tiles => tiles[i, j]))
    }

    /** `Board::getTile`. The source does no bounds check; here the bounds are a
        precondition. */
    function GetTile(i: int, j: int): (t: Tile)
      reads tiles
      requires Shaped() && InBoard(i, j)
      ensures t == At(Grid(), i, j)
    {
      tiles[i, j]
    }

    /** `Board::updateBoard`: crosses off the tile `(y / 8, x / 8)` under the player
        (note: not `(coordinate - 4) / 8`). The source receives the Player by value and
        reads only its coordinates, which are the parameters here. */
    method UpdateBoard(px: int, py: int)
      requires Valid()
      requires InBoard(Div8(py), Div8(px))
      modifies tiles
      ensures Valid()
      ensures Grid() == MarkCrossed(old(Grid()), Div8(py), Div8(px))
    {
      var xTile := Div8(px);
      var yTile := Div8(py);
      ghost var before := Grid();
      if !tiles[yTile, xTile].crossed {
        tiles[yTile, xTile] := tiles[yTile, xTile].(crossed := true);
      }
      ghost var expected := MarkCrossed(before, yTile, xTile);
      assert forall i :: 0 <= i < 31 ==> Grid()[i] == expected[i];
    }

    ghost predicate Built()
      reads tiles
    {
      Valid() && Uncrossed()
    }

    /** The exit `d` of tile (i, j) may be opened without opening the board's edge. */
    static predicate ExitAllowed(i: int, j: int, d: Direction)
    {
      d != Default && ExitsInside(WithExit(Blank, d, true), i, j)
    }

    /** `tiles[i][j].setGoUp(b)` and its three siblings, applied to the array in place. */
    method SetExit(i: int, j: int, d: Direction, allow: bool)
      requires Built() && InBoard(i, j) && d != Default
      requires allow ==> 0 < i < 30 && ExitAllowed(i, j, d)
      modifies tiles
      ensures Built()
      ensures tiles[i, j] == WithExit(old(tiles[i, j]), d, allow)
      ensures forall a, b :: InBoard(a, b) && (a != i || b != j) ==> tiles[a, b] == old(tiles[a, b])
    {
      tiles[i, j] := WithExit(tiles[i, j], d, allow);
    }

    /** `Board::Board()`: every tile starts blank and the maze is carved by the source's
        loops and single assignments, in the source's order. */
    constructor ()
      ensures fresh(tiles)
      ensures Valid() && Uncrossed()
      ensures tiles[1, 1] == SpawnCorner
    {
      tiles := new Tile[31, 28];
      new;
      for i := 0 to 31
        invariant forall a, b :: 0 <= a < i && 0 <= b < 28 ==> tiles[a, b] == Blank
      {
        for j := 0 to 28
          invariant forall a, b :: 0 <= a < i && 0 <= b < 28 ==> tiles[a, b] == Blank
          invariant forall b :: 0 <= b < j ==> tiles[i, b] == Blank
        {
          tiles[i, j] := Blank;
        }
      }

      assert Built();
      CarveTopCorridors();
      CarveJunctionRows();
      CarveSideColumnsAndTunnel();
      CarveGhostHouse();
      CarveLowerMaze();
      CarveBottomMaze();
    }

    /** Rows 1, 5 and 20 and columns 1 and 26 of the upper maze (pacman.cpp:883-926). */
    method CarveTopCorridors()
      requires Built() && tiles[1, 1] == Blank
      modifies tiles
      ensures Built() && tiles[1, 1] == SpawnCorner
    {
      for i := 1 to 27
        invariant Built()
        invariant i == 1 ==> tiles[1, 1] == Blank
        invariant i > 1 ==> tiles[1, 1] == Tile(false, false, false, true, true)
      {
        if i != 14 && i != 13 {
          SetExit(1, i, Right, true);
          SetExit(1, i, Left, true);
          SetExit(20, i, Left, true);
          SetExit(20, i, Right, true);
        }
      }
      SetExit(1, 12, Right, false);
      SetExit(1, 15, Left, false);
      SetExit(1, 1, Left, false);
      SetExit(1, 26, Right, false);
      SetExit(20, 12, Right, false);
      SetExit(20, 15, Left, false);
      SetExit(20, 1, Left, false);
      SetExit(20, 26, Right, false);

      for i := 1 to 27
        invariant Built() && tiles[1, 1] == Tile(false, false, false, false, true)
      {
        if i != 1 {
          SetExit(5, i, Left, true);
        }
        if i != 26 {
          SetExit(5, i, Right, true);
        }
      }

      for i := 1 to 9
        invariant Built()
        invariant i == 1 ==> tiles[1, 1] == Tile(false, false, false, false, true)
        invariant i > 1 ==> tiles[1, 1] == SpawnCorner
      {
        if i != 1 {
          SetExit(i, 1, Up, true);
          SetExit(i, 26, Up, true);
        }
        if i != 8 {
          SetExit(i, 1, Down, true);
          SetExit(i, 26, Down, true);
        }
      }

    }

    /** Rows 8 and 26, with their short spurs (pacman.cpp:929-981). */
    method CarveJunctionRows()
      requires Built() && tiles[1, 1] == SpawnCorner
      modifies tiles
      ensures Built() && tiles[1, 1] == SpawnCorner
    {
      for i := 1 to 7
        invariant Built() && tiles[1, 1] == SpawnCorner
      {
        if i != 1 {
          SetExit(8, i, Left, true);
          SetExit(26, i, Left, true);
        }
        if i != 6 {
          SetExit(8, i, Right, true);
          SetExit(26, i, Right, true);
        }
      }

      SetExit(8, 9, Right, true);
      SetExit(8, 10, Right, true);
      SetExit(8, 11, Right, true);
      SetExit(8, 10, Left, true);
      SetExit(8, 11, Left, true);
      SetExit(8, 12, Left, true);

      SetExit(8, 15, Right, true);
      SetExit(8, 16, Right, true);
      SetExit(8, 17, Right, true);
      SetExit(8, 16, Left, true);
      SetExit(8, 17, Left, true);
      SetExit(8, 18, Left, true);

      SetExit(26, 9, Right, true);
      SetExit(26, 10, Right, true);
      SetExit(26, 11, Right, true);
      SetExit(26, 10, Left, true);
      SetExit(26, 11, Left, true);
      SetExit(26, 12, Left, true);

      SetExit(26, 15, Right, true);
      SetExit(26, 16, Right, true);
      SetExit(26, 17, Right, true);
      SetExit(26, 16, Left, true);
      SetExit(26, 17, Left, true);
      SetExit(26, 18, Left, true);

      for i := 21 to 27
        invariant Built() && tiles[1, 1] == SpawnCorner
      {
        if i != 21 {
          SetExit(8, i, Left, true);
        }
        if i != 26 {
          SetExit(8, i, Right, true);
        }
      }

    }

    /** Columns 6 and 21, row 29 and the row-14 tunnel (pacman.cpp:983-1014). */
    method CarveSideColumnsAndTunnel()
      requires Built() && tiles[1, 1] == SpawnCorner
      modifies tiles
      ensures Built() && tiles[1, 1] == SpawnCorner
    {
      for i := 1 to 27
        invariant Built() && tiles[1, 1] == SpawnCorner
      {
        if i != 1 {
          SetExit(i, 6, Up, true);
          SetExit(i, 21, Up, true);
          SetExit(29, i, Left, true);
        }
        if i != 26 {
          SetExit(i, 6, Down, true);
          SetExit(i, 21, Down, true);
          SetExit(29, i, Right, true);
        }
      }

      // The tunnel: row 14 lets an entity leave through column 0 and column 27.
      for i := 0 to 10
        invariant Built() && tiles[1, 1] == SpawnCorner
      {
        SetExit(14, i, Left, true);
        if i != 9 {
          SetExit(14, i, Right, true);
        }
      }

      for i := 18 to 28
        invariant Built() && tiles[1, 1] == SpawnCorner
      {
        SetExit(14, i, Right, true);
        if i != 18 {
          SetExit(14, i, Left, true);
        }
      }

    }

    /** The ring around the ghost house and the columns joining it (pacman.cpp:1016-1084). */
    method CarveGhostHouse()
      requires Built() && tiles[1, 1] == SpawnCorner
      modifies tiles
      ensures Built() && tiles[1, 1] == SpawnCorner
    {
      for i := 9 to 19
        invariant Built() && tiles[1, 1] == SpawnCorner
      {
        if i != 9 {
          SetExit(11, i, Left, true);
          SetExit(17, i, Left, true);
        }
        if i != 18 {
          SetExit(11, i, Right, true);
          SetExit(17, i, Right, true);
        }
      }

      for i := 11 to 21
        invariant Built() && tiles[1, 1] == SpawnCorner
      {
        if i != 11 {
          SetExit(i, 9, Up, true);
          SetExit(i, 18, Up, true);
        }
        if i != 20 {
          SetExit(i, 9, Down, true);
          SetExit(i, 18, Down, true);
        }
      }

      for i := 1 to 6
        invariant Built() && tiles[1, 1] == SpawnCorner
      {
        if i != 1 {
          SetExit(i, 12, Up, true);
          SetExit(i, 15, Up, true);
        }
        if i != 5 {
          SetExit(i, 12, Down, true);
          SetExit(i, 15, Down, true);
        }
      }

      for i := 5 to 9
        invariant Built() && tiles[1, 1] == SpawnCorner
      {
        if i != 5 {
          SetExit(i, 9, Up, true);
          SetExit(i, 18, Up, true);
        }
        if i != 8 {
          SetExit(i, 9, Down, true);
          SetExit(i, 18, Down, true);
        }
      }

      for i := 8 to 12
        invariant Built() && tiles[1, 1] == SpawnCorner
      {
        if i != 8 {
          SetExit(i, 12, Up, true);
          SetExit(i, 15, Up, true);
        }
        if i != 11 {
          SetExit(i, 12, Down, true);
          SetExit(i, 15, Down, true);
        }
      }

    }

    /** Columns 1, 12, 15 and 26 of rows 20 to 23, and row 23 (pacman.cpp:1086-1113). */
    method CarveLowerMaze()
      requires Built() && tiles[1, 1] == SpawnCorner
      modifies tiles
      ensures Built() && tiles[1, 1] == SpawnCorner
    {
      for i := 20 to 24
        invariant Built() && tiles[1, 1] == SpawnCorner
      {
        if i != 20 {
          SetExit(i, 1, Up, true);
          SetExit(i, 12, Up, true);
          SetExit(i, 15, Up, true);
          SetExit(i, 26, Up, true);
        }
        if i != 23 {
          SetExit(i, 1, Down, true);
          SetExit(i, 12, Down, true);
          SetExit(i, 15, Down, true);
          SetExit(i, 26, Down, true);
        }
      }

      for i := 6 to 22
        invariant Built() && tiles[1, 1] == SpawnCorner
      {
        if i != 6 {
          SetExit(23, i, Left, true);
        }
        if i != 21 {
          SetExit(23, i, Right, true);
        }
      }
    }

    /** The bottom of the maze, rows 23 to 29 (pacman.cpp:1115-1170). */
    method CarveBottomMaze()
      requires Built() && tiles[1, 1] == SpawnCorner
      modifies tiles
      ensures Built() && tiles[1, 1] == SpawnCorner
    {
      for i := 23 to 27
        invariant Built() && tiles[1, 1] == SpawnCorner
      {
        if i != 23 {
          SetExit(i, 9, Up, true);
          SetExit(i, 18, Up, true);
          SetExit(i, 3, Up, true);
          SetExit(i, 24, Up, true);
        }
        if i != 26 {
          SetExit(i, 9, Down, true);
          SetExit(i, 18, Down, true);
          SetExit(i, 3, Down, true);
          SetExit(i, 24, Down, true);
        }
      }

      for i := 21 to 27
        invariant Built() && tiles[1, 1] == SpawnCorner
      {
        if i != 26 {
          SetExit(26, i, Right, true);
        }
        if i != 21 {
          SetExit(26, i, Left, true);
        }
      }

      SetExit(23, 1, Right, true);
      SetExit(23, 2, Right, true);
      SetExit(23, 2, Left, true);
      SetExit(23, 3, Left, true);

      SetExit(23, 24, Right, true);
      SetExit(23, 25, Right, true);
      SetExit(23, 25, Left, true);
      SetExit(23, 26, Left, true);

      for i := 26 to 30
        invariant Built() && tiles[1, 1] == SpawnCorner
      {
        if i != 26 {
          SetExit(i, 1, Up, true);
          SetExit(i, 12, Up, true);
          SetExit(i, 15, Up, true);
          SetExit(i, 26, Up, true);
        }
        if i != 29 {
          SetExit(i, 1, Down, true);
          SetExit(i, 12, Down, true);
          SetExit(i, 15, Down, true);
          SetExit(i, 26, Down, true);
        }
      }
    }

  }
}
