/** How the ghosts choose their next turn (pacman.cpp, `Blinky`, `Pinky` and `Inky`).

    Each ghost picks a goal tile (a corner in scatter mode, a tile derived from the player
    otherwise) and then, looking one tile ahead, the exit of its current tile that brings
    it closest to the goal by Manhattan distance, never reversing. Ties go to the first
    of Down, Up, Left, Right. */
module Pursuit {
  import opened Geometry
  import opened Maze
  import opened Movement

  /** A tile position as (row, column). Goals may lie off the board. */
  datatype Spot = Spot(row: int, col: int)

  /** The tile an entity is on, by the source's `(coordinate - 4) / 8`. */
  function TileOf(p: Pose): Spot
  {
    Spot(TileIndex(p.y), TileIndex(p.x))
  }

  /** The goal shift of Pinky and Inky: `k` tiles along `d`, none for DEFAULT. */
  function Shift(s: Spot, d: Direction, k: int): Spot
  {
    match d
    case Left => s.(col := s.col - k)
    case Right => s.(col := s.col + k)
    case Up => s.(row := s.row - k)
    case Down => s.(row := s.row + k)
    case Default => s
  }

  /** The neighbouring tile in direction `d`, as the lookahead computes it. */
  function Neighbour(s: Spot, d: Direction): Spot
  {
    match d
    case Down => Spot(s.row + 1, s.col)
    case Up => Spot(s.row - 1, s.col)
    case Left => Spot(s.row, s.col - 1)
    case Right => Spot(s.row, s.col + 1)
    case Default => s
  }

  /** `n` neighbour steps in the same direction. */
  function Walk(s: Spot, d: Direction, n: nat): Spot
  {
    if n == 0 then s else Neighbour(Walk(s, d, n - 1), d)
  }

  /** Shifting by `k` tiles is walking `k` tiles. */
  lemma {:induction false} ShiftIsWalk(s: Spot, d: Direction, k: nat)
    ensures Shift(s, d, k) == Walk(s, d, k)
  {
    if k > 0 {
      ShiftIsWalk(s, d, k - 1);
    }
  }

  /** The Manhattan distance written `abs(goalY - yTile) + abs(goalX - xTile)`. */
  function Distance(a: Spot, b: Spot): nat
  {
    Abs(b.row - a.row) + Abs(b.col - a.col)
  }

  /** Blinky chases the player's tile; its scatter corner is the top right. */
  function BlinkyGoal(scatter: bool, player: Pose): (r: Spot)
    ensures scatter ==> r == Spot(0, 27)
    ensures !scatter ==> r == TileOf(player)
  {
    if !scatter then TileOf(player) else Spot(0, 27)
  }

  /** Pinky aims four tiles ahead of the player; its scatter corner is the top left. */
  function PinkyGoal(scatter: bool, player: Pose): (r: Spot)
    ensures scatter ==> r == Spot(0, 0)
  {
    if !scatter then Shift(TileOf(player), player.orientation, 4) else Spot(0, 0)
  }

  /** Inky reflects the tile two ahead of the player through Blinky's position, taken in
      pixels (the source mixes the units); its scatter corner is the bottom left. */
  function InkyGoal(scatter: bool, player: Pose, blinky: Pose): (r: Spot)
    ensures scatter ==> r == Spot(30, 0)
  {
    if !scatter then
      var a := Shift(TileOf(player), player.orientation, 2);
      Spot(a.row + (a.row - blinky.y), a.col + (a.col - blinky.x))
    else Spot(30, 0)
  }

  /** In chase mode Pinky's goal lies on the player's line of travel, four tiles ahead
      (on the player's own tile when the player has no direction). */
  lemma PinkyLeadsPlayer(player: Pose)
    ensures PinkyGoal(false, player) == Walk(TileOf(player), player.orientation, 4)
    ensures player.orientation != Default ==> Distance(TileOf(player), PinkyGoal(false, player)) == 4
    ensures player.orientation == Default ==> PinkyGoal(false, player) == TileOf(player)
  {
    ShiftIsWalk(TileOf(player), player.orientation, 4);
  }

  /** In chase mode the tile two ahead of the player is the midpoint between Inky's goal
      and Blinky's pixel position. */
  lemma InkyMirrorsBlinky(player: Pose, blinky: Pose)
    ensures var a := Walk(TileOf(player), player.orientation, 2);
            var r := InkyGoal(false, player, blinky);
            r.row + blinky.y == 2 * a.row && r.col + blinky.x == 2 * a.col
  {
    ShiftIsWalk(TileOf(player), player.orientation, 2);
  }

  /** A candidate exit: the tile has it and it is not a reversal of the current
      orientation. DEFAULT is never a candidate. */
  predicate Open(t: Tile, orientation: Direction, d: Direction)
  {
    Permits(t, d) && orientation != Reverse(d)
  }

  /** The order in which the candidates are tried: Down, Up, Left, Right. */
  function Rank(d: Direction): nat
  {
    match d
    case Down => 0
    case Up => 1
    case Left => 2
    case Right => 3
    case Default => 4
  }

  /** The distance to the goal after one step in direction `d`. */
  function Score(here: Spot, goal: Spot, d: Direction): nat
  {
    Distance(Neighbour(here, d), goal)
  }

  /** One `if` of `decideTurn`: candidate `d` replaces the best so far when it is open
      and strictly closer. */
  function Consider(t: Tile, orientation: Direction, here: Spot, goal: Spot,
                    d: Direction, best: Direction, bound: int): (Direction, int)
  {
    if Open(t, orientation, d) && Score(here, goal, d) < bound then (d, Score(here, goal, d))
    else (best, bound)
  }

  /** The candidates in the order the four `if`s of `decideTurn` try them. */
  const Candidates := [Down, Up, Left, Right]

  /** The `if`s of `decideTurn` for the candidates `ds`, in order, from the best
      direction and distance so far. */
  function RaceOver(t: Tile, orientation: Direction, here: Spot, goal: Spot,
                    ds: seq<Direction>, best: Direction, bound: int): (Direction, int)
    decreases |ds|
  {
    if |ds| == 0 then (best, bound)
    else
      var (b, h) := Consider(t, orientation, here, goal, ds[0], best, bound);
      RaceOver(t, orientation, here, goal, ds[1..], b, h)
  }

  /** All four `if`s from the baseline, the current distance plus 20: the final `best`
      and `hamilton`. */
  function Race(t: Tile, orientation: Direction, here: Spot, goal: Spot): (Direction, int)
  {
    RaceOver(t, orientation, here, goal, Candidates, Default, Distance(here, goal) + 20)
  }

  /** The choice `decideTurn` makes on tile `t` at `here`: DEFAULT exactly when no exit
      is open, otherwise an open one (`ChooseIsBest` says which). */
  function Choose(t: Tile, orientation: Direction, here: Spot, goal: Spot): (r: Direction)
    ensures r == Default <==> forall d :: !Open(t, orientation, d)
    ensures r != Default ==> Open(t, orientation, r)
  {
    RaceLeads(t, orientation, here, goal);
    assert forall d :: Open(t, orientation, d) ==> Rank(d) < 4;
    Race(t, orientation, here, goal).0
  }

  /** What holds once the candidates of rank below `k` have been tried: `best` is DEFAULT
      with the baseline `bound` and none of them was open, or it is the open one with the
      least score, `bound`, and no earlier open one ties with it. */
  ghost predicate Leading(t: Tile, orientation: Direction, here: Spot, goal: Spot,
                          k: nat, best: Direction, bound: int)
  {
    && (best == Default ==>
          bound == Distance(here, goal) + 20 &&
          forall d :: Rank(d) < k ==> !Open(t, orientation, d))
    && (best != Default ==>
          Open(t, orientation, best) && Rank(best) < k && bound == Score(here, goal, best))
    && (forall d :: Rank(d) < k && Open(t, orientation, d) ==>
          bound <= Score(here, goal, d) &&
          (Rank(d) < Rank(best) ==> bound < Score(here, goal, d)))
  }

  /** Trying the candidate of rank `k` keeps `Leading` for the candidates up to `k`. */
  lemma ConsiderKeepsLeading(t: Tile, orientation: Direction, here: Spot, goal: Spot,
                             d: Direction, best: Direction, bound: int)
    requires d != Default
    requires Leading(t, orientation, here, goal, Rank(d), best, bound)
    ensures var (b, h) := Consider(t, orientation, here, goal, d, best, bound);
            Leading(t, orientation, here, goal, Rank(d) + 1, b, h)
  {
    var k := Rank(d);
    var s := Score(here, goal, d);
    forall e | Rank(e) == k
      ensures e == d
    {
    }
    if Open(t, orientation, d) && s < bound {
      forall e | Rank(e) < k + 1 && Open(t, orientation, e)
        ensures s <= Score(here, goal, e) && (Rank(e) < k ==> s < Score(here, goal, e))
      {
        if e != d {
          assert Rank(e) < k;
        }
      }
    } else {
      if best == Default {
        NeighbourIsClose(here, goal, d);
      }
    }
  }

  /** Every neighbour is at most one tile farther from the goal, so below the +20
      baseline. */
  lemma NeighbourIsClose(here: Spot, goal: Spot, d: Direction)
    ensures Score(here, goal, d) <= Distance(here, goal) + 1
  {
  }

  /** Trying the remaining candidates `ds`, those from rank `k` on, takes `Leading` from
      `k` to 4. */
  lemma {:induction false} RaceOverLeads(t: Tile, orientation: Direction, here: Spot, goal: Spot,
                                         ds: seq<Direction>, k: nat, best: Direction, bound: int)
    requires k <= 4 && ds == Candidates[k..]
    requires Leading(t, orientation, here, goal, k, best, bound)
    ensures var r := RaceOver(t, orientation, here, goal, ds, best, bound);
            Leading(t, orientation, here, goal, 4, r.0, r.1)
    decreases 4 - k
  {
    if k < 4 {
      var d := ds[0];
      assert d == Candidates[k] && Rank(d) == k;
      ConsiderKeepsLeading(t, orientation, here, goal, d, best, bound);
      var (b, h) := Consider(t, orientation, here, goal, d, best, bound);
      assert ds[1..] == Candidates[k + 1..];
      RaceOverLeads(t, orientation, here, goal, ds[1..], k + 1, b, h);
    }
  }

  /** After all four candidates, `Leading` holds of the race's result. */
  lemma RaceLeads(t: Tile, orientation: Direction, here: Spot, goal: Spot)
    ensures var r := Race(t, orientation, here, goal);
            Leading(t, orientation, here, goal, 4, r.0, r.1)
  {
    var base := Distance(here, goal) + 20;
    assert Race(t, orientation, here, goal) == RaceOver(t, orientation, here, goal, Candidates, Default, base);
    StartLeads(t, orientation, here, goal);
    RaceOverLeads(t, orientation, here, goal, Candidates, 0, Default, base);
  }

  /** Before any candidate, DEFAULT with the baseline leads. */
  lemma StartLeads(t: Tile, orientation: Direction, here: Spot, goal: Spot)
    ensures Leading(t, orientation, here, goal, 0, Default, Distance(here, goal) + 20)
  {
  }

  /** `decideTurn`'s rule: the result is DEFAULT exactly when no exit is open; otherwise it
      is an open exit (never the reversal of the current orientation) whose one-step
      distance to the goal is least, and the earliest of Down, Up, Left, Right among the
      least. */
  lemma ChooseIsBest(t: Tile, orientation: Direction, here: Spot, goal: Spot)
    ensures var r := Choose(t, orientation, here, goal);
            && (r == Default <==> forall d :: !Open(t, orientation, d))
            && (r != Default ==> Open(t, orientation, r) && r != Reverse(orientation))
            && (forall d :: Open(t, orientation, d) ==> Score(here, goal, r) <= Score(here, goal, d))
            && (forall d :: Open(t, orientation, d) && Rank(d) < Rank(r) ==>
                  Score(here, goal, r) < Score(here, goal, d))
  {
    RaceLeads(t, orientation, here, goal);
    var (b, h) := Race(t, orientation, here, goal);
    assert forall d :: Open(t, orientation, d) ==> Rank(d) < 4;
    if b != Default {
      ReverseInvolutive(b);
    }
  }

  /** The text of `decideTurn` after the goal: the tile under the ghost, then `Choose`. */
  function Decide(g: Grid, at: Pose, goal: Spot): (r: Direction)
    requires WellSized(g) && OnGrid(at.x, at.y)
    ensures r == Default || Permits(TileAt(g, at.x, at.y), r)
    ensures r != Default ==> r != Reverse(at.orientation)
  {
    ChooseIsBest(TileAt(g, at.x, at.y), at.orientation, TileOf(at), goal);
    Choose(TileAt(g, at.x, at.y), at.orientation, TileOf(at), goal)
  }

  /** A ghost never turns around: on a tile whose only exit leads back, it asks for no
      turn. */
  lemma NoReversal(t: Tile, orientation: Direction, here: Spot, goal: Spot)
    requires orientation != Default
    requires forall d :: Permits(t, d) ==> d == Reverse(orientation)
    ensures Choose(t, orientation, here, goal) == Default
  {
    ChooseIsBest(t, orientation, here, goal);
    assert forall d :: !Open(t, orientation, d);
  }

  /** No U-turn toward the goal: facing up with the goal straight below, on a tile open in
      every direction, a ghost keeps going up. Down would be the reversal, and Up, Left and
      Right all end one tile farther from the goal, so Up, tried first of them, wins. */
  lemma NoUTurnTowardGoal(here: Spot, k: nat)
    ensures Choose(Tile(false, true, true, true, true), Up, here, Spot(here.row + k, here.col)) == Up
  {
    var t := Tile(false, true, true, true, true);
    var goal := Spot(here.row + k, here.col);
    ChooseIsBest(t, Up, here, goal);
    assert Open(t, Up, Up) && Score(here, goal, Up) == k + 1;
    assert Score(here, goal, Left) == k + 1 && Score(here, goal, Right) == k + 1;
  }

  /** The ghosts' spawn column, beside the ghost house on pixel row 93. */
  const BlinkySpawn := Pose(111, 93, Up, Default, true, false, false)
  const PinkySpawn := Pose(127, 93, Up, Default, true, false, false)
  const InkySpawn := Pose(143, 93, Up, Default, true, false, false)

  /** The red ghost. */
  class Blinky {
    const body: Entity

    constructor ()
      ensures fresh(body) && body.State() == BlinkySpawn
    {
      body := new Entity.Spawn(111, 93, Up);
    }

    /** `Blinky::decideTurn`. The board and player are read-only copies in the source. */
    method DecideTurn(board: Board, player: Pose)
      requires board.Shaped() && OnGrid(body.x, body.y)
      modifies body
      ensures var s := old(body.State());
              body.State() == s.(nextTurn := Decide(board.Grid(), s, BlinkyGoal(s.scatterMode, player)))
    {
      OnGridTile(body.x, body.y);
      var here := board.GetTile(TileIndex(body.y), TileIndex(body.x));
      body.SetNextTurn(Choose(here, body.orientation, TileOf(body.State()), BlinkyGoal(body.scatterMode, player)));
    }
  }

  /** The pink ghost. */
  class Pinky {
    const body: Entity

    constructor ()
      ensures fresh(body) && body.State() == PinkySpawn
    {
      body := new Entity.Spawn(127, 93, Up);
    }

    /** `Pinky::decideTurn`. */
    method DecideTurn(board: Board, player: Pose)
      requires board.Shaped() && OnGrid(body.x, body.y)
      modifies body
      ensures var s := old(body.State());
              body.State() == s.(nextTurn := Decide(board.Grid(), s, PinkyGoal(s.scatterMode, player)))
    {
      OnGridTile(body.x, body.y);
      var here := board.GetTile(TileIndex(body.y), TileIndex(body.x));
      body.SetNextTurn(Choose(here, body.orientation, TileOf(body.State()), PinkyGoal(body.scatterMode, player)));
    }
  }

  /** The blue ghost. */
  class Inky {
    const body: Entity

    constructor ()
      ensures fresh(body) && body.State() == InkySpawn
    {
      body := new Entity.Spawn(143, 93, Up);
    }

    /** `Inky::decideTurn`, which also reads a copy of Blinky. */
    method DecideTurn(board: Board, player: Pose, blinky: Pose)
      requires board.Shaped() && OnGrid(body.x, body.y)
      modifies body
      ensures var s := old(body.State());
              body.State() == s.(nextTurn := Decide(board.Grid(), s, InkyGoal(s.scatterMode, player, blinky)))
    {
      OnGridTile(body.x, body.y);
      var here := board.GetTile(TileIndex(body.y), TileIndex(body.x));
      body.SetNextTurn(Choose(here, body.orientation, TileOf(body.State()), InkyGoal(body.scatterMode, player, blinky)));
    }
  }
}
