/** The movement engine shared by the player and the ghosts (pacman.cpp, class Entity).

    An entity advances two pixels per update along its orientation. At a tile centre it
    moves only if the tile has an exit that way; between centres it always moves. After
    the move it wraps through the tunnel, and when it stands on a centre whose tile has
    an exit toward the requested next turn, it takes that turn. */
module Movement {
  import opened Geometry
  import opened Maze

  /** An entity's state: pixel position, current and requested direction, the mouth
      flag the renderer alternates, and the two ghost mode flags. */
  datatype Pose = Pose(
    x: int, y: int,
    orientation: Direction, nextTurn: Direction,
    mouthOpen: bool, scatterMode: bool, fleeMode: bool)

  predicate Vertical(d: Direction)
  {
    d == Up || d == Down
  }

  predicate Horizontal(d: Direction)
  {
    d == Left || d == Right
  }

  /** The pixel displacement of one sub-step in direction `d`, as (dx, dy). */
  function Delta(d: Direction): (int, int)
  {
    match d
    case Right => (1, 0)
    case Left => (-1, 0)
    case Up => (0, -1)
    case Down => (0, 1)
    case Default => (0, 0)
  }

  function Max(a: int, b: int): int
  {
    if a < b then b else a
  }

  function Min(a: int, b: int): int
  {
    if a < b then a else b
  }

  /** Every pixel in this range has its tile inside the 31 by 28 grid. */
  predicate OnGrid(x: int, y: int)
  {
    -3 <= x <= 227 && -3 <= y <= 251
  }

  lemma OnGridTile(x: int, y: int)
    requires OnGrid(x, y)
    ensures InBoard(TileIndex(y), TileIndex(x))
  {
  }

  /** The coordinates from which one update reads only tiles of the grid: the tile the
      sub-steps consult, and after a move of up to two pixels, the tile of the turn test. */
  predicate InReach(p: Pose)
  {
    -3 <= p.x <= 227 && -1 <= p.y <= 249
  }

  /** The tile the sub-steps consult: the one under the start position, with the column
      clamped to 0 when moving right and to 27 when moving left. */
  function ExitTile(g: Grid, x: int, y: int, d: Direction): (r: Tile)
    requires WellSized(g) && OnGrid(x, y)
    ensures d != Default ==> r == TileAt(g, x, y)
  {
    OnGridTile(x, y);
    ClampedTile(g, TileIndex(x), TileIndex(y), d)
  }

  /** The tile consulted from tile column `xTile`, row `yTile`, for direction `d`. The
      clamps never act: a column inside the grid is its own clamp, so every direction
      reads the tile under the entity. DEFAULT reads no tile. */
  function ClampedTile(g: Grid, xTile: int, yTile: int, d: Direction): (r: Tile)
    requires WellSized(g) && InBoard(yTile, xTile)
    ensures d != Default ==> r == At(g, yTile, xTile)
  {
    match d
    case Right => At(g, yTile, Max(xTile, 0))
    case Left => At(g, yTile, Min(xTile, 27))
    case Up => At(g, yTile, xTile)
    case Down => At(g, yTile, xTile)
    case Default => Blank
  }

  /** One 1-pixel sub-step: taken when tile `t` has an exit in direction `d` or the
      entity is off a tile centre. */
  function SubStep(x: int, y: int, d: Direction, t: Tile): (r: (int, int))
    ensures r == (x, y) || r == (x + Delta(d).0, y + Delta(d).1)
    ensures r != (x + Delta(d).0, y + Delta(d).1) ==> Aligned(x, y) && !Permits(t, d)
    ensures Aligned(x, y) && !Permits(t, d) ==> r == (x, y)
  {
    if Permits(t, d) || !Aligned(x, y) then (x + Delta(d).0, y + Delta(d).1) else (x, y)
  }

  /** `n` sub-steps, all against the same tile `t`. */
  function Slide(x: int, y: int, d: Direction, t: Tile, n: nat): (r: (int, int))
    ensures Delta(d).0 == 0 ==> r.0 == x
    ensures Delta(d).1 == 0 ==> r.1 == y
    ensures x - n <= r.0 <= x + n && y - n <= r.1 <= y + n
    ensures Aligned(x, y) && !Permits(t, d) ==> r == (x, y)
  {
    if n == 0 then (x, y)
    else
      var (px, py) := Slide(x, y, d, t, n - 1);
      SubStep(px, py, d, t)
  }

  /** The tunnel: past the right edge an entity reappears at -1, before the left edge
      at 221. */
  function WrapX(x: int): (r: int)
    ensures -1 <= r <= 224
    ensures 0 <= x <= 224 ==> r == x
    ensures x > 224 ==> r == -1
    ensures x < 0 ==> r == 221
  {
    if x > 224 then -1 else if x < 0 then 221 else x
  }

  /** The exit tile at a pixel position on the grid. */
  function TileAt(g: Grid, x: int, y: int): Tile
    requires WellSized(g) && OnGrid(x, y)
  {
    OnGridTile(x, y);
    At(g, TileIndex(y), TileIndex(x))
  }

  /** The orientation after the turn test at (x, y). */
  function Commit(g: Grid, x: int, y: int, orientation: Direction, nextTurn: Direction): (r: Direction)
    requires WellSized(g) && OnGrid(x, y)
    ensures r == orientation || r == nextTurn
    ensures r != orientation ==> Aligned(x, y) && Permits(TileAt(g, x, y), nextTurn)
    ensures Aligned(x, y) && Permits(TileAt(g, x, y), nextTurn) ==> r == nextTurn
  {
    if Aligned(x, y) && Permits(TileAt(g, x, y), nextTurn) then nextTurn else orientation
  }

  /** The position part of an update: two sub-steps against the start tile, then the
      tunnel wrap. */
  function Moved(p: Pose, g: Grid): (m: Pose)
    requires WellSized(g) && InReach(p)
    ensures m == p.(x := m.x, y := m.y)
    ensures -1 <= m.x <= 224 && p.y - 2 <= m.y <= p.y + 2
    ensures !Horizontal(p.orientation) ==> m.x == WrapX(p.x)
    ensures !Vertical(p.orientation) ==> m.y == p.y
    ensures Aligned(p.x, p.y) && !Permits(ExitTile(g, p.x, p.y, p.orientation), p.orientation) ==>
              m.x == WrapX(p.x) && m.y == p.y
    ensures p.x - 2 <= m.x <= p.x + 2 || m.x == -1 || m.x == 221
  {
    var (mx, my) := Slide(p.x, p.y, p.orientation, ExitTile(g, p.x, p.y, p.orientation), 2);
    p.(x := WrapX(mx), y := my)
  }

  /** `Entity::update` on a pose: toggle the mouth, take two sub-steps, wrap, then try
      the requested turn. */
  function Tick(p: Pose, g: Grid): (q: Pose)
    requires WellSized(g) && InReach(p)
    ensures q.mouthOpen == !p.mouthOpen
    ensures q.nextTurn == p.nextTurn && q.scatterMode == p.scatterMode && q.fleeMode == p.fleeMode
    ensures -1 <= q.x <= 224 && p.y - 2 <= q.y <= p.y + 2
    ensures !Horizontal(p.orientation) ==> q.x == WrapX(p.x)
    ensures !Vertical(p.orientation) ==> q.y == p.y
    ensures Aligned(p.x, p.y) && !Permits(ExitTile(g, p.x, p.y, p.orientation), p.orientation) ==>
              q.x == WrapX(p.x) && q.y == p.y
    ensures q.orientation != p.orientation ==>
              q.orientation == p.nextTurn && Aligned(q.x, q.y) && Permits(TileAt(g, q.x, q.y), p.nextTurn)
    ensures Aligned(q.x, q.y) && Permits(TileAt(g, q.x, q.y), p.nextTurn) ==> q.orientation == p.nextTurn
    ensures p.nextTurn == Default ==> q.orientation == p.orientation
    ensures p.x - 2 <= q.x <= p.x + 2 || q.x == -1 || q.x == 221
  {
    var m := Moved(p, g);
    m.(orientation := Commit(g, m.x, m.y, p.orientation, p.nextTurn), mouthOpen := !p.mouthOpen)
  }

  /** From odd coordinates, the second sub-step always follows the first: a 1-pixel
      move lands off every tile centre. So the entity either stays or moves two pixels. */
  lemma SlideFromOdd(x: int, y: int, d: Direction, t: Tile)
    requires x % 2 == 1 && y % 2 == 1
    ensures Slide(x, y, d, t, 2) ==
              if Aligned(x, y) && !Permits(t, d) then (x, y)
              else (x + 2 * Delta(d).0, y + 2 * Delta(d).1)
  {
    var (dx, dy) := Delta(d);
    assert Slide(x, y, d, t, 1) == SubStep(x, y, d, t);
    if !(Aligned(x, y) && !Permits(t, d)) {
      if d != Default {
        OffCentreAfterOne(x, y, d);
      }
      assert Slide(x, y, d, t, 2) == SubStep(x + dx, y + dy, d, t);
    }
  }

  /** One pixel from odd coordinates is off every tile centre. */
  lemma OffCentreAfterOne(x: int, y: int, d: Direction)
    requires x % 2 == 1 && y % 2 == 1 && d != Default
    ensures !Aligned(x + Delta(d).0, y + Delta(d).1)
  {
    var (dx, dy) := Delta(d);
    assert (x + dx) % 2 == 0 || (y + dy) % 2 == 0;
    AlignedIsOdd(x + dx, y + dy);
  }

  /** Where an entity may be between updates: on odd pixels inside the maze, on the row
      of a tile centre while moving horizontally and on the column of one (never in the
      tunnel's column -1) while moving vertically. */
  predicate Positioned(p: Pose)
  {
    && -1 <= p.x <= 223 && 5 <= p.y <= 245
    && p.x % 2 == 1 && p.y % 2 == 1
    && (Vertical(p.orientation) ==> XAligned(p.x) && 0 <= p.x)
    && (Horizontal(p.orientation) ==> YAligned(p.y))
  }

  /** On an enclosed board, an update keeps an entity positioned. In particular every
      tile it reads is in the grid and it never stands on pixel column 224. */
  lemma TickKeepsPositioned(p: Pose, g: Grid)
    requires WellSized(g) && Enclosed(g) && Positioned(p)
    ensures InReach(p) && Positioned(Tick(p, g))
  {
    MoveKeepsPositioned(p, g);
    CommitKeepsPositioned(Moved(p, g), g);
  }

  /** The move alone keeps an entity positioned. */
  lemma MoveKeepsPositioned(p: Pose, g: Grid)
    requires WellSized(g) && Enclosed(g) && Positioned(p)
    ensures Positioned(Moved(p, g))
  {
    match p.orientation
    case Up => UpStaysInside(p, g);
    case Down => DownStaysInside(p, g);
    case _ => SideStaysInside(p, g);
  }

  /** From odd coordinates an update's move is the wrap of either the start or the point
      two pixels on. */
  lemma MoveFromOdd(p: Pose, g: Grid)
    requires WellSized(g) && InReach(p) && p.x % 2 == 1 && p.y % 2 == 1
    ensures var t := ExitTile(g, p.x, p.y, p.orientation);
            var (dx, dy) := Delta(p.orientation);
            Moved(p, g) ==
              if Aligned(p.x, p.y) && !Permits(t, p.orientation) then p.(x := WrapX(p.x))
              else p.(x := WrapX(p.x + 2 * dx), y := p.y + 2 * dy)
  {
    SlideFromOdd(p.x, p.y, p.orientation, ExitTile(g, p.x, p.y, p.orientation));
  }

  /** Moving up stops at row 0: its centres have no upward exit. */
  lemma UpStaysInside(p: Pose, g: Grid)
    requires WellSized(g) && Enclosed(g) && Positioned(p) && p.orientation == Up
    ensures Positioned(Moved(p, g))
  {
    var t := ExitTile(g, p.x, p.y, Up);
    var k := if Aligned(p.x, p.y) && !Permits(t, Up) then 0 else -1;
    var ny := p.y + 2 * k;
    MoveFromOdd(p, g);
    assert Moved(p, g) == p.(y := ny);
    if Aligned(p.x, p.y) && Permits(t, Up) {
      CentreOfTile(p.y, 13);
      OnGridTile(p.x, p.y);
      assert ExitsInside(t, TileIndex(p.y), TileIndex(p.x));
    } else if !Aligned(p.x, p.y) {
      assert YAligned(5);
    }
    OddShift(p.y, k);
    VerticalKeepsColumn(p, ny);
  }

  /** Moving down stops at row 30: its centres have no downward exit. */
  lemma DownStaysInside(p: Pose, g: Grid)
    requires WellSized(g) && Enclosed(g) && Positioned(p) && p.orientation == Down
    ensures Positioned(Moved(p, g))
  {
    var t := ExitTile(g, p.x, p.y, Down);
    var k := if Aligned(p.x, p.y) && !Permits(t, Down) then 0 else 1;
    var ny := p.y + 2 * k;
    MoveFromOdd(p, g);
    assert Moved(p, g) == p.(y := ny);
    if Aligned(p.x, p.y) && Permits(t, Down) {
      CentreOfTile(p.y, 13);
      OnGridTile(p.x, p.y);
      assert ExitsInside(t, TileIndex(p.y), TileIndex(p.x));
    } else if !Aligned(p.x, p.y) {
      assert YAligned(245);
    }
    OddShift(p.y, k);
    VerticalKeepsColumn(p, ny);
  }

  /** Moving vertically onto an odd row of the maze keeps an entity positioned. */
  lemma VerticalKeepsColumn(p: Pose, y: int)
    requires Positioned(p) && Vertical(p.orientation)
    requires 5 <= y <= 245 && y % 2 == 1
    ensures Positioned(p.(y := y))
  {
  }

  /** Moving sideways changes only x, by 0 or 2 and then the wrap, all onto odd pixels. */
  lemma SideStaysInside(p: Pose, g: Grid)
    requires WellSized(g) && Positioned(p) && !Vertical(p.orientation)
    ensures Positioned(Moved(p, g))
  {
    var k := if Aligned(p.x, p.y) && !Permits(ExitTile(g, p.x, p.y, p.orientation), p.orientation)
             then 0 else Delta(p.orientation).0;
    var nx := p.x + 2 * k;
    assert Delta(p.orientation).1 == 0;
    MoveFromOdd(p, g);
    assert Moved(p, g) == p.(x := WrapX(nx));
    OddShift(p.x, k);
    OddWrap(nx);
    SideKeepsRow(p, WrapX(nx));
  }

  /** Moving an even number of pixels keeps a coordinate odd. */
  lemma OddShift(x: int, k: int)
    requires x % 2 == 1
    ensures (x + 2 * k) % 2 == 1
  {
  }

  /** Moving sideways onto an odd column of the maze keeps an entity positioned. */
  lemma SideKeepsRow(p: Pose, x: int)
    requires Positioned(p) && !Vertical(p.orientation)
    requires -1 <= x <= 223 && x % 2 == 1
    ensures Positioned(p.(x := x))
  {
  }

  /** The wrap keeps an odd column odd and inside the maze. */
  lemma OddWrap(x: int)
    requires -3 <= x <= 225 && x % 2 == 1
    ensures -1 <= WrapX(x) <= 223 && WrapX(x) % 2 == 1
  {
  }

  /** Taking a turn keeps an entity positioned: turns happen on centres, and a vertical
      exit never lies in column 0, which holds the tunnel pixel -1. */
  lemma CommitKeepsPositioned(m: Pose, g: Grid)
    requires WellSized(g) && Enclosed(g) && Positioned(m)
    ensures Positioned(m.(orientation := Commit(g, m.x, m.y, m.orientation, m.nextTurn)))
  {
    var o := Commit(g, m.x, m.y, m.orientation, m.nextTurn);
    if o != m.orientation && Vertical(o) {
      assert Permits(TileAt(g, m.x, m.y), o);
      assert TileIndex(m.x) > 0;
    }
  }

  /** `n` updates on a fixed board. */
  function Ticks(p: Pose, g: Grid, n: nat): (q: Pose)
    requires WellSized(g) && Enclosed(g) && Positioned(p)
    ensures Positioned(q)
    ensures q.nextTurn == p.nextTurn
    decreases n
  {
    if n == 0 then p
    else
      TickKeepsPositioned(p, g);
      Ticks(Tick(p, g), g, n - 1)
  }

  /** The mouth is open after an even number of updates exactly when it was open
      before them. */
  lemma {:induction false} MouthAlternates(p: Pose, g: Grid, n: nat)
    requires WellSized(g) && Enclosed(g) && Positioned(p)
    ensures Ticks(p, g, n).mouthOpen == (p.mouthOpen == (n % 2 == 0))
    decreases n
  {
    if n > 0 {
      var q := TicksStep(p, g, n);
      MouthAlternates(q, g, n - 1);
      ParityStep(n);
    }
  }

  /** The first of `n` updates. */
  lemma TicksStep(p: Pose, g: Grid, n: nat) returns (q: Pose)
    requires WellSized(g) && Enclosed(g) && Positioned(p) && n > 0
    ensures Positioned(q) && q.mouthOpen == !p.mouthOpen
    ensures Ticks(p, g, n) == Ticks(q, g, n - 1)
  {
    TickKeepsPositioned(p, g);
    q := Tick(p, g);
  }

  lemma ParityStep(n: nat)
    requires n > 0
    ensures (n % 2 == 0) == !((n - 1) % 2 == 0)
  {
  }

  /** Unless it is stopped at a centre by a missing exit, a positioned entity moves
      exactly two pixels along its orientation (then wraps). */
  lemma TickAdvances(p: Pose, g: Grid)
    requires WellSized(g) && Enclosed(g) && Positioned(p)
    requires !Aligned(p.x, p.y) || Permits(ExitTile(g, p.x, p.y, p.orientation), p.orientation)
    ensures Tick(p, g).x == WrapX(p.x + 2 * Delta(p.orientation).0)
    ensures Tick(p, g).y == p.y + 2 * Delta(p.orientation).1
  {
    SlideFromOdd(p.x, p.y, p.orientation, ExitTile(g, p.x, p.y, p.orientation));
  }

  /** Two poses lie on the same tile, by the source's `(coordinate - 4) / 8`. */
  predicate SameTile(a: Pose, b: Pose)
  {
    TileIndex(a.x) == TileIndex(b.x) && TileIndex(a.y) == TileIndex(b.y)
  }

  /** Two entities share a tile only when they are less than 8 pixels apart on each
      axis; two entities on tile centres share a tile exactly when they are on the same
      pixel (right of the tunnel's column -1, which belongs to tile 0 as well). */
  lemma SameTileProximity(a: Pose, b: Pose)
    requires 4 <= a.x && 4 <= a.y && 4 <= b.x && 4 <= b.y
    ensures SameTile(a, b) ==> -8 < a.x - b.x < 8 && -8 < a.y - b.y < 8
    ensures Aligned(a.x, a.y) && Aligned(b.x, b.y) ==>
              (SameTile(a, b) <==> a.x == b.x && a.y == b.y)
  {
    if Aligned(a.x, a.y) && Aligned(b.x, b.y) && SameTile(a, b) {
      CentreOfTile(a.x, 15);
      CentreOfTile(b.x, 15);
      CentreOfTile(a.y, 13);
      CentreOfTile(b.y, 13);
    }
  }

  /** A centre coordinate is the fixed offset `c - 8` past its tile's left edge. */
  lemma CentreOfTile(v: int, c: int)
    requires 4 <= v && (c == 15 || c == 13) && (v - c) % 8 == 0
    ensures v == 8 * TileIndex(v) + c - 8
  {
    var k := (v - c) / 8;
    assert v - c == 8 * k;
  }

  /** The tunnel column -1 and the first centre, 7, both belong to tile 0. */
  lemma TunnelSharesTileZero()
    ensures XAligned(-1) && XAligned(7) && TileIndex(-1) == TileIndex(7) == 0
  {
  }

  /** Where the player starts (pacman.cpp:121-124, with the mouth open from `Entity()`). */
  const PlayerSpawn := Pose(15, 13, Right, Default, true, false, false)

  /** An entity moving right with no turn requested, off a centre or on one whose tile
      has a right exit, advances two pixels and keeps its orientation. */
  lemma RunRight(p: Pose, g: Grid)
    requires WellSized(g) && p.orientation == Right && p.nextTurn == Default
    requires 1 <= p.x <= 221 && p.x % 2 == 1 && -1 <= p.y <= 249 && p.y % 2 == 1
    requires !Aligned(p.x, p.y) || Permits(ExitTile(g, p.x, p.y, Right), Right)
    ensures Tick(p, g) == p.(x := p.x + 2, mouthOpen := !p.mouthOpen)
  {
    SlideFromOdd(p.x, p.y, Right, ExitTile(g, p.x, p.y, Right));
  }

  /** From its spawn on the top-left corner tile the player moves right two pixels per
      update: after one update it is at x = 17, after four at the next centre, x = 23. */
  lemma SpawnRun(g: Grid)
    requires WellSized(g) && At(g, 1, 1) == SpawnCorner
    ensures Tick(PlayerSpawn, g).x == 17 && Tick(PlayerSpawn, g).y == 13
    ensures Tick(Tick(Tick(Tick(PlayerSpawn, g), g), g), g) == PlayerSpawn.(x := 23)
  {
    assert ExitTile(g, 15, 13, Right) == SpawnCorner;
    RunRight(PlayerSpawn, g);
    var p1 := PlayerSpawn.(x := 17, mouthOpen := false);
    RunRight(p1, g);
    var p2 := p1.(x := 19, mouthOpen := true);
    RunRight(p2, g);
    var p3 := p2.(x := 21, mouthOpen := false);
    RunRight(p3, g);
  }

  /** `Entity`: the fields the source keeps, updated in place. */
  class Entity {
    var x: int
    var y: int
    var orientation: Direction
    var nextTurn: Direction
    var mouthOpen: bool
    var scatterMode: bool
    var fleeMode: bool

    function State(): Pose
      reads this
    {
      Pose(x, y, orientation, nextTurn, mouthOpen, scatterMode, fleeMode)
    }

    /** `Entity()` followed by a subclass constructor's `setXLoc`, `setYLoc` and
        `setOrientation`: the mouth starts open, no turn is requested and both modes
        are off. */
    constructor Spawn(x0: int, y0: int, facing: Direction)
      ensures State() == Pose(x0, y0, facing, Default, true, false, false)
    {
      x := x0;
      y := y0;
      orientation := facing;
      nextTurn := Default;
      mouthOpen := true;
      scatterMode := false;
      fleeMode := false;
    }

    method SetXLoc(v: int)
      modifies this
      ensures State() == old(State()).(x := v)
    {
      x := v;
    }

    method SetYLoc(v: int)
      modifies this
      ensures State() == old(State()).(y := v)
    {
      y := v;
    }

    method SetOrientation(d: Direction)
      modifies this
      ensures State() == old(State()).(orientation := d)
    {
      orientation := d;
    }

    method SetMouthOpen(b: bool)
      modifies this
      ensures State() == old(State()).(mouthOpen := b)
    {
      mouthOpen := b;
    }

    method SetNextTurn(d: Direction)
      modifies this
      ensures State() == old(State()).(nextTurn := d)
    {
      nextTurn := d;
    }

    method SetScatter(b: bool)
      modifies this
      ensures State() == old(State()).(scatterMode := b)
    {
      scatterMode := b;
    }

    method SetFlee(b: bool)
      modifies this
      ensures State() == old(State()).(fleeMode := b)
    {
      fleeMode := b;
    }

    /** `sharingTile`. */
    predicate SharingTile(e: Entity)
      reads this, e
    {
      SameTile(State(), e.State())
    }

    /** `Entity::update`. The source receives the board by value and only reads it. */
    method Update(board: Board)
      requires board.Shaped() && InReach(State())
      modifies this
      ensures State() == Tick(old(State()), board.Grid())
    {
      mouthOpen := !mouthOpen;
      Move(board);
      TryTurn(board);
    }

    /** The two sub-steps and the tunnel wrap of `Entity::update`. */
    method Move(board: Board)
      requires board.Shaped() && InReach(State())
      modifies this
      ensures State() == Moved(old(State()), board.Grid())
    {
      ghost var start := State();
      ghost var t := ExitTile(board.Grid(), x, y, orientation);
      var xTile := TileIndex(x);
      var yTile := TileIndex(y);
      OnGridTile(x, y);
      for i := 0 to 2
        invariant (x, y) == Slide(start.x, start.y, start.orientation, t, i)
        invariant State() == start.(x := x, y := y)
      {
        Nudge(board, xTile, yTile, t);
      }

      if x > 224 {
        x := -1;
      } else if x < 0 {
        x := 221;
      }
    }

    /** One sub-step of `Entity::update`, against the tile (`yTile`, `xTile`) the update
        computed before its first sub-step. */
    method Nudge(board: Board, xTile: int, yTile: int, ghost t: Tile)
      requires board.Shaped() && InBoard(yTile, xTile)
      requires t == ClampedTile(board.Grid(), xTile, yTile, orientation)
      modifies this
      ensures State() == old(State()).(x := x, y := y)
      ensures (x, y) == SubStep(old(x), old(y), orientation, t)
    {
      var free := Rem8(x - 15) != 0 || Rem8(y - 13) != 0;
      assert free == !Aligned(x, y);
      match orientation
      case Right =>
        if board.GetTile(yTile, Max(xTile, 0)).right || free {
          x := x + 1;
        }
      case Left =>
        if board.GetTile(yTile, Min(xTile, 27)).left || free {
          x := x - 1;
        }
      case Up =>
        if board.GetTile(yTile, xTile).up || free {
          y := y - 1;
        }
      case Down =>
        if board.GetTile(yTile, xTile).down || free {
          y := y + 1;
        }
      case Default =>
    }

    /** The turn test that ends `Entity::update`: on a tile centre, take the requested
        turn when the tile has that exit. */
    method TryTurn(board: Board)
      requires board.Shaped() && OnGrid(x, y)
      modifies this
      ensures var s := old(State());
              State() == s.(orientation := Commit(board.Grid(), s.x, s.y, s.orientation, s.nextTurn))
    {
      var yTile := TileIndex(y);
      var xTile := TileIndex(x);
      OnGridTile(x, y);
      var tile := board.GetTile(yTile, xTile);
      assert (Rem8(x - 15) == 0 && Rem8(y - 13) == 0) == Aligned(x, y);
      if Rem8(x - 15) == 0 && Rem8(y - 13) == 0 {
        match nextTurn
        case Up =>
          if tile.up {
            orientation := Up;
          }
        case Down =>
          if tile.down {
            orientation := Down;
          }
        case Left =>
          if tile.left {
            orientation := Left;
          }
        case Right =>
          if tile.right {
            orientation := Right;
          }
        case Default =>
      }
    }
  }
}
