/** The game loop of `main` (pacman.cpp:1389-1577) without rendering: per frame it reads
    the keyboard, crosses off the player's tile, starts or ends flee mode, moves or kills
    the player every third frame and updates the scatter flags and the ghosts every
    fourth frame while the player is alive. */
module MainLoop {
  import opened Geometry
  import opened Maze
  import opened Movement
  import opened Pursuit
  import opened Hero

  datatype Option<T> = None | Some(value: T)

  /** What the event queue delivered during one frame: the last arrow key pressed, if
      any, and whether the window was closed. */
  datatype Input = Input(arrow: Option<Direction>, quit: bool)

  /** The whole game state as a value: `frame`, `fleeFrame` and `quit` from `main`, the
      board, the player with its death counter, and the three ghosts. */
  datatype World = World(
    frame: int, fleeFrame: int, quit: bool,
    grid: Grid,
    player: Pose, death: int,
    blinky: Pose, pinky: Pose, inky: Pose)

  /** What every reachable state satisfies and every step needs: a board with no exit
      off the grid, every entity positioned, and the counters in range. */
  predicate Sane(w: World)
  {
    && WellSized(w.grid) && Enclosed(w.grid)
    && Positioned(w.player) && Positioned(w.blinky) && Positioned(w.pinky) && Positioned(w.inky)
    && 0 <= w.death <= LastDeathFrame
    && 0 <= w.fleeFrame && 0 <= w.frame
  }

  /** The state before the first frame. */
  function Start(g: Grid): (w: World)
    requires WellSized(g) && Enclosed(g)
    ensures Sane(w)
  {
    World(0, 0, false, g, PlayerSpawn, 0, BlinkySpawn, PinkySpawn, InkySpawn)
  }

  /** Event handling: an arrow key requests the player's next turn; closing the window
      sets `quit`, which ends the loop only after the current frame. */
  function Poll(w: World, input: Input): (r: World)
    ensures Sane(w) ==> Sane(r)
    ensures r == w.(quit := r.quit, player := r.player)
    ensures r.quit == (w.quit || input.quit)
    ensures r.player == if input.arrow.Some? then w.player.(nextTurn := input.arrow.value) else w.player
  {
    var p := match input.arrow
      case Some(d) => w.player.(nextTurn := d)
      case None => w.player;
    w.(quit := w.quit || input.quit, player := p)
  }

  /** A positioned entity stands on a tile `updateBoard` can index with `x / 8, y / 8`:
      x is at most 223, never 224. */
  lemma VisitInBoard(p: Pose)
    requires Positioned(p)
    ensures InBoard(Div8(p.y), Div8(p.x))
  {
  }

  /** `board.updateBoard(player)`. */
  function Visit(w: World): (r: World)
    requires Sane(w)
    ensures Sane(r) && r == w.(grid := r.grid)
  {
    VisitInBoard(w.player);
    MarkCrossedIdempotent(w.grid, Div8(w.player.y), Div8(w.player.x));
    w.(grid := MarkCrossed(w.grid, Div8(w.player.y), Div8(w.player.x)))
  }

  /** The four power-pellet tiles, as (row, column). */
  const PelletTiles: set<(int, int)> := {(3, 1), (3, 26), (23, 1), (23, 26)}

  /** The pellet test, in its two branches: row 3, then row 23, each at column 1 or 26. */
  predicate OnPellet(p: Pose)
    ensures OnPellet(p) <==> (TileIndex(p.y), TileIndex(p.x)) in PelletTiles
  {
    || (TileIndex(p.y) == 3 && (TileIndex(p.x) == 1 || TileIndex(p.x) == 26))
    || (TileIndex(p.y) == 23 && (TileIndex(p.x) == 1 || TileIndex(p.x) == 26))
  }

  /** `setFlee(b)` on all three ghosts. */
  function FleeAll(w: World, b: bool): (r: World)
    ensures Sane(w) ==> Sane(r)
    ensures r == w.(blinky := r.blinky, pinky := r.pinky, inky := r.inky)
    ensures r.blinky == w.blinky.(fleeMode := b) && r.pinky == w.pinky.(fleeMode := b)
    ensures r.inky == w.inky.(fleeMode := b)
  {
    w.(blinky := w.blinky.(fleeMode := b), pinky := w.pinky.(fleeMode := b), inky := w.inky.(fleeMode := b))
  }

  /** `setScatter(b)` on all three ghosts. */
  function ScatterAll(w: World, b: bool): (r: World)
    ensures Sane(w) ==> Sane(r)
    ensures r == w.(blinky := r.blinky, pinky := r.pinky, inky := r.inky)
    ensures r.blinky == w.blinky.(scatterMode := b) && r.pinky == w.pinky.(scatterMode := b)
    ensures r.inky == w.inky.(scatterMode := b)
  {
    w.(blinky := w.blinky.(scatterMode := b), pinky := w.pinky.(scatterMode := b),
       inky := w.inky.(scatterMode := b))
  }

  /** Eating a power pellet puts all three ghosts in flee mode and records the frame. */
  function Pellet(w: World): (r: World)
    ensures Sane(w) ==> Sane(r)
    ensures OnPellet(w.player) ==> r == FleeAll(w, true).(fleeFrame := w.frame)
    ensures !OnPellet(w.player) ==> r == w
    ensures r == w.(fleeFrame := r.fleeFrame, blinky := r.blinky, pinky := r.pinky, inky := r.inky)
    ensures r.blinky == w.blinky.(fleeMode := r.blinky.fleeMode)
    ensures r.pinky == w.pinky.(fleeMode := r.pinky.fleeMode)
    ensures r.inky == w.inky.(fleeMode := r.inky.fleeMode)
  {
    if OnPellet(w.player) then FleeAll(w, true).(fleeFrame := w.frame) else w
  }

  /** Flee mode ends 600 frames after the pellet, unless the pellet frame is 0. */
  function Expiry(w: World): (r: World)
    ensures Sane(w) ==> Sane(r)
    ensures w.fleeFrame != 0 && w.frame == w.fleeFrame + 600 ==> r == FleeAll(w, false)
    ensures !(w.fleeFrame != 0 && w.frame == w.fleeFrame + 600) ==> r == w
    ensures r == w.(fleeFrame := r.fleeFrame, blinky := r.blinky, pinky := r.pinky, inky := r.inky)
    ensures r.blinky == w.blinky.(fleeMode := r.blinky.fleeMode)
    ensures r.pinky == w.pinky.(fleeMode := r.pinky.fleeMode)
    ensures r.inky == w.inky.(fleeMode := r.inky.fleeMode)
  {
    if w.fleeFrame != 0 && w.frame == w.fleeFrame + 600 then FleeAll(w, false) else w
  }

  /** The collision test: the player shares a tile with a ghost while Blinky, and only
      Blinky, is checked for flee mode. */
  predicate Caught(w: World)
  {
    (SameTile(w.player, w.blinky) || SameTile(w.player, w.pinky) || SameTile(w.player, w.inky))
    && !w.blinky.fleeMode
  }

  /** Only Blinky's flee flag protects the player: Pinky's and Inky's do not matter. While
      the flee flags agree, the player is caught exactly when it shares a tile with a
      ghost and the ghosts are not fleeing. */
  lemma CaughtReadsBlinkyFlee(w: World, b: bool, c: bool)
    ensures Caught(w) == Caught(w.(pinky := w.pinky.(fleeMode := b), inky := w.inky.(fleeMode := c)))
    ensures FleeInv(w) ==>
              (Caught(w) <==>
                 (SameTile(w.player, w.blinky) || SameTile(w.player, w.pinky) || SameTile(w.player, w.inky))
                 && !w.blinky.fleeMode && !w.pinky.fleeMode && !w.inky.fleeMode)
  {
  }

  /** Every third frame: a dying or caught player advances its death animation (the game
      ends when it reaches 11); otherwise the player moves. */
  function PlayerPhase(w: World): (r: World)
    requires Sane(w)
    ensures Sane(r)
    ensures r == w.(player := r.player, death := r.death, quit := r.quit)
    ensures w.death <= r.death
    ensures r.death != w.death ==> r.death == w.death + 1 && r.player == w.player
    ensures r.quit != w.quit ==> r.death == LastDeathFrame
    ensures w.frame % 3 == 0 && w.death == 0 && !Caught(w) ==> r.player == Tick(w.player, w.grid)
  {
    if w.frame % 3 == 0 then
      if w.death != 0 || Caught(w) then
        var d := Killed(w.death);
        w.(death := d, quit := w.quit || d == LastDeathFrame)
      else
        TickKeepsPositioned(w.player, w.grid);
        w.(player := Tick(w.player, w.grid))
    else w
  }

  /** The scatter schedule: on for frames 0 to 419 of every 1620, then off. */
  function Scatter(w: World): (r: World)
    ensures Sane(w) ==> Sane(r)
    ensures r == w.(blinky := r.blinky, pinky := r.pinky, inky := r.inky)
    ensures r.blinky == w.blinky.(scatterMode := r.blinky.scatterMode)
    ensures r.pinky == w.pinky.(scatterMode := r.pinky.scatterMode)
    ensures r.inky == w.inky.(scatterMode := r.inky.scatterMode)
  {
    if w.frame % 1620 == 0 then ScatterAll(w, true)
    else if (w.frame + 1200) % 1620 == 0 then ScatterAll(w, false)
    else w
  }

  /** `decideTurn` followed by `update` for one ghost chasing `goal`. */
  function Chase(me: Pose, g: Grid, goal: Spot): (r: Pose)
    requires WellSized(g) && Enclosed(g) && Positioned(me)
    ensures Positioned(r)
    ensures r.scatterMode == me.scatterMode && r.fleeMode == me.fleeMode
  {
    var d := me.(nextTurn := Decide(g, me, goal));
    TickKeepsPositioned(d, g);
    Tick(d, g)
  }

  /** Each ghost decides with the board and the player, then moves; Inky decides with
      Blinky's new position. */
  function GhostsMove(w: World): (r: World)
    requires Sane(w)
    ensures Sane(r)
    ensures r == w.(blinky := r.blinky, pinky := r.pinky, inky := r.inky)
    ensures r.blinky.scatterMode == w.blinky.scatterMode && r.blinky.fleeMode == w.blinky.fleeMode
    ensures r.pinky.scatterMode == w.pinky.scatterMode && r.pinky.fleeMode == w.pinky.fleeMode
    ensures r.inky.scatterMode == w.inky.scatterMode && r.inky.fleeMode == w.inky.fleeMode
  {
    var b := Chase(w.blinky, w.grid, BlinkyGoal(w.blinky.scatterMode, w.player));
    var p := Chase(w.pinky, w.grid, PinkyGoal(w.pinky.scatterMode, w.player));
    var i := Chase(w.inky, w.grid, InkyGoal(w.inky.scatterMode, w.player, b));
    w.(blinky := b, pinky := p, inky := i)
  }

  /** Every fourth frame while the player is alive: the scatter schedule, then the
      ghosts. */
  function GhostPhase(w: World): (r: World)
    requires Sane(w)
    ensures Sane(r)
    ensures r == w.(blinky := r.blinky, pinky := r.pinky, inky := r.inky)
    ensures r.blinky.fleeMode == w.blinky.fleeMode && r.pinky.fleeMode == w.pinky.fleeMode
    ensures r.inky.fleeMode == w.inky.fleeMode
  {
    if w.frame % 4 == 0 && w.death == 0 then GhostsMove(Scatter(w)) else w
  }

  /** The scatter flag the schedule leaves on frame `f` when it was `s`. */
  function ScatterNext(f: int, s: bool): bool
  {
    if f % 1620 == 0 then true else if (f + 1200) % 1620 == 0 then false else s
  }

  /** What the ghost phase does to the scatter flags. */
  lemma GhostPhaseScatter(w: World)
    requires Sane(w)
    ensures var r := GhostPhase(w);
            var run := w.frame % 4 == 0 && w.death == 0;
            && r.blinky.scatterMode == (if run then ScatterNext(w.frame, w.blinky.scatterMode) else w.blinky.scatterMode)
            && r.pinky.scatterMode == (if run then ScatterNext(w.frame, w.pinky.scatterMode) else w.pinky.scatterMode)
            && r.inky.scatterMode == (if run then ScatterNext(w.frame, w.inky.scatterMode) else w.inky.scatterMode)
  {
    if w.frame % 4 == 0 && w.death == 0 {
      var s := Scatter(w);
      assert s.blinky.scatterMode == ScatterNext(w.frame, w.blinky.scatterMode);
      assert s.pinky.scatterMode == ScatterNext(w.frame, w.pinky.scatterMode);
      assert s.inky.scatterMode == ScatterNext(w.frame, w.inky.scatterMode);
    }
  }

  /** Everything a frame does before the player's turn. */
  function Prepare(w: World, input: Input): (r: World)
    requires Sane(w)
    ensures Sane(r)
    ensures r.frame == w.frame && r.death == w.death && r.quit == (w.quit || input.quit)
    ensures r.player == Poll(w, input).player
    ensures r.blinky == w.blinky.(fleeMode := r.blinky.fleeMode)
    ensures r.pinky == w.pinky.(fleeMode := r.pinky.fleeMode)
    ensures r.inky == w.inky.(fleeMode := r.inky.fleeMode)
  {
    var a := Poll(w, input);
    var v := Visit(a);
    var b := Pellet(v);
    Expiry(b)
  }

  /** One iteration of the game loop. */
  function Frame(w: World, input: Input): (r: World)
    requires Sane(w)
    ensures Sane(r) && r.frame == w.frame + 1
  {
    var g := GhostPhase(PlayerPhase(Prepare(w, input)));
    g.(frame := g.frame + 1)
  }

  /** Flee mode as the frames go by: the three flags always agree. Before the first frame
      no pellet has been eaten. After frame `F` > 0 in which a pellet was last eaten, the
      ghosts flee through frame `F + 599` and stop at frame `F + 600`. A pellet eaten at
      frame 0 would never expire, but the player cannot stand on one then. */
  predicate FleeInv(w: World)
  {
    && w.blinky.fleeMode == w.pinky.fleeMode && w.pinky.fleeMode == w.inky.fleeMode
    && (w.frame == 0 ==> w.fleeFrame == 0 && !w.blinky.fleeMode && !OnPellet(w.player))
    && (w.frame > 0 ==>
          w.fleeFrame < w.frame &&
          (w.blinky.fleeMode <==> w.fleeFrame != 0 && w.frame <= w.fleeFrame + 600))
  }

  /** Scatter mode as the frames go by: the three flags always agree, and while the
      player is alive the ghosts scatter during frames 0 to 419 of every 1620 and chase
      during frames 420 to 1619. */
  predicate ScatterInv(w: World)
  {
    && w.blinky.scatterMode == w.pinky.scatterMode && w.pinky.scatterMode == w.inky.scatterMode
    && (w.frame > 0 && w.death == 0 ==> (w.blinky.scatterMode <==> (w.frame - 1) % 1620 < 420))
  }

  /** Both invariants hold before the first frame. */
  lemma StartInvariants(g: Grid)
    requires WellSized(g) && Enclosed(g)
    ensures FleeInv(Start(g)) && ScatterInv(Start(g))
  {
    assert TileIndex(PlayerSpawn.y) == 1;
  }

  /** The arithmetic of the scatter clock: the source's `(frame + 1200) % 1620 == 0` is
      `frame % 1620 == 420`; frames that are not multiples of 4 hit neither switch (4
      divides both 1620 and 420); and between the switches the mode does not change. */
  lemma ScatterClock(f: int)
    requires f >= 0
    ensures (f + 1200) % 1620 == 0 <==> f % 1620 == 420
    ensures f % 4 != 0 ==> f % 1620 != 0 && f % 1620 != 420
    ensures f >= 1 && f % 1620 != 0 && f % 1620 != 420 ==>
              ((f - 1) % 1620 < 420 <==> f % 1620 < 420)
  {
    ChaseSwitch(f, f / 1620, f % 1620);
    SwitchesOnQuarters(f, f / 1620, f % 1620);
    if f % 1620 != 0 {
      PreviousFrame(f, f / 1620, f % 1620);
    }
  }

  /** The chase switch `(f + 1200) % 1620 == 0` fires at offset 420 of the period. */
  lemma ChaseSwitch(f: int, q: int, m: int)
    requires f == 1620 * q + m && 0 <= m < 1620
    ensures (f + 1200) % 1620 == 0 <==> m == 420
  {
    if m >= 420 {
      assert f + 1200 == 1620 * (q + 1) + (m - 420);
    } else {
      assert f + 1200 == 1620 * q + (m + 1200);
    }
  }

  /** 4 divides the period, so a frame and its offset agree modulo 4. */
  lemma SwitchesOnQuarters(f: int, q: int, m: int)
    requires f == 1620 * q + m && 0 <= m < 1620
    ensures f % 4 == m % 4
  {
    assert f == 4 * (405 * q) + m;
  }

  /** Within a period, the frame before has the offset before. */
  lemma PreviousFrame(f: int, q: int, m: int)
    requires f == 1620 * q + m && 1 <= m < 1620
    ensures (f - 1) % 1620 == m - 1
  {
    assert f - 1 == 1620 * q + (m - 1);
  }

  /** One frame keeps `FleeInv`. */
  lemma FrameKeepsFlee(w: World, input: Input)
    requires Sane(w) && FleeInv(w)
    ensures FleeInv(Frame(w, input))
  {
    var a := Visit(Poll(w, input));
    var b := Pellet(a);
    var m := Expiry(b);
    var p := PlayerPhase(m);
    var r := Frame(w, input);
    assert m == Prepare(w, input);
    assert a.player.x == w.player.x && a.player.y == w.player.y;
    assert r.fleeFrame == m.fleeFrame;
    assert r.blinky.fleeMode == m.blinky.fleeMode && r.pinky.fleeMode == m.pinky.fleeMode;
    assert r.inky.fleeMode == m.inky.fleeMode;
  }

  /** Between the switches, the flag the schedule leaves on a frame divisible by 4 is
      the one the invariant asks for. */
  lemma ScatterSwitch(f: int, s: bool)
    requires f >= 0 && f % 4 == 0
    requires f >= 1 ==> (s <==> (f - 1) % 1620 < 420)
    ensures ScatterNext(f, s) <==> f % 1620 < 420
  {
    ScatterClock(f);
  }

  /** One step of the scatter clock: if the flag `s` matched the schedule on the frame
      before `f`, the flag `t` the ghost phase leaves on frame `f` matches it too, unless
      the player has started dying. */
  lemma ScatterStep(f: int, dead: bool, s: bool, t: bool)
    requires f >= 0
    requires f >= 1 && !dead ==> (s <==> (f - 1) % 1620 < 420)
    requires t == if f % 4 == 0 && !dead then ScatterNext(f, s) else s
    ensures !dead ==> (t <==> f % 1620 < 420)
  {
    ScatterClock(f);
    if f % 4 == 0 && !dead {
      ScatterSwitch(f, s);
    }
  }

  /** How a frame's result is assembled from its phases. */
  lemma FrameParts(w: World, input: Input)
    requires Sane(w)
    ensures var m := Prepare(w, input);
            var p := PlayerPhase(m);
            var g := GhostPhase(p);
            var r := Frame(w, input);
            && r == g.(frame := w.frame + 1)
            && p.frame == w.frame && g.death == p.death
            && p.blinky == m.blinky && p.pinky == m.pinky && p.inky == m.inky
  {
  }

  /** One frame keeps `ScatterInv`. */
  lemma FrameKeepsScatter(w: World, input: Input)
    requires Sane(w) && ScatterInv(w)
    ensures ScatterInv(Frame(w, input))
  {
    var m := Prepare(w, input);
    var p := PlayerPhase(m);
    var s := w.blinky.scatterMode;
    FrameParts(w, input);
    GhostPhaseScatter(p);
    var t := if w.frame % 4 == 0 && p.death == 0 then ScatterNext(w.frame, s) else s;
    ScatterStep(w.frame, p.death != 0, s, t);
  }

  /** The death counter over one frame: it never decreases and never passes 11; it goes
      up exactly on a frame divisible by 3 when the player is dying or caught; the frame
      that brings it to 11 ends the game; and the player moves, by one update, exactly
      on a frame divisible by 3 when it is alive and not caught. */
  lemma FrameDeath(w: World, input: Input)
    requires Sane(w)
    ensures var m := Prepare(w, input);
            var r := Frame(w, input);
            && w.death <= r.death <= LastDeathFrame
            && (r.death == w.death + 1 <==>
                  w.frame % 3 == 0 && w.death < LastDeathFrame && (w.death != 0 || Caught(m)))
            && (r.death == LastDeathFrame && w.death < LastDeathFrame ==> r.quit)
            && (r.player != m.player ==>
                  w.frame % 3 == 0 && w.death == 0 && !Caught(m) && r.player == Tick(m.player, m.grid))
            && (w.frame % 3 == 0 && w.death == 0 && !Caught(m) ==> r.player == Tick(m.player, m.grid))
  {
    var m := Prepare(w, input);
    var p := PlayerPhase(m);
    assert Frame(w, input).death == p.death && Frame(w, input).player == p.player;
    assert Frame(w, input).quit == p.quit;
  }

  /** The ghosts stay where they are, facing the same way and with the same requested
      turn, unless the frame is divisible by 4 and the player is alive; only their flee
      flags may change. */
  lemma GhostsWait(w: World, input: Input)
    requires Sane(w)
    ensures var r := Frame(w, input);
            !(w.frame % 4 == 0 && r.death == 0) ==>
              && r.blinky == w.blinky.(fleeMode := r.blinky.fleeMode)
              && r.pinky == w.pinky.(fleeMode := r.pinky.fleeMode)
              && r.inky == w.inky.(fleeMode := r.inky.fleeMode)
  {
    var p := PlayerPhase(Prepare(w, input));
    assert Frame(w, input).death == p.death;
  }

  /** On a frame divisible by 4 with the player alive, after the scatter switch, each ghost
      decides and updates toward its goal, in the order Blinky, Pinky, Inky; Inky's goal
      is worked out from Blinky's pose after Blinky has moved. */
  lemma GhostsChase(w: World, input: Input)
    requires Sane(w)
    ensures var p := PlayerPhase(Prepare(w, input));
            var s := Scatter(p);
            var r := Frame(w, input);
            w.frame % 4 == 0 && p.death == 0 ==>
              && r.blinky == Chase(s.blinky, s.grid, BlinkyGoal(s.blinky.scatterMode, s.player))
              && r.pinky == Chase(s.pinky, s.grid, PinkyGoal(s.pinky.scatterMode, s.player))
              && r.inky == Chase(s.inky, s.grid, InkyGoal(s.inky.scatterMode, s.player, r.blinky))
  {
    FrameParts(w, input);
  }

  /** Standing on a power-pellet tile puts the three ghosts in flee mode for this frame
      and records it as the flee frame. */
  lemma PelletStartsFlee(w: World, input: Input)
    requires Sane(w) && OnPellet(w.player)
    ensures var r := Frame(w, input);
            r.fleeFrame == w.frame && r.blinky.fleeMode && r.pinky.fleeMode && r.inky.fleeMode
  {
    var a := Visit(Poll(w, input));
    assert a.player.x == w.player.x && a.player.y == w.player.y && a.frame == w.frame;
    var m := Prepare(w, input);
    assert m.fleeFrame == w.frame && m.blinky.fleeMode && m.pinky.fleeMode && m.inky.fleeMode;
  }

  /** The game loop over a sequence of per-frame inputs: it runs a frame while `quit` is
      unset and inputs remain. */
  function Play(w: World, ins: seq<Input>): (r: World)
    requires Sane(w)
    ensures Sane(r)
    ensures w.frame <= r.frame <= w.frame + |ins|
    ensures r.frame == w.frame + |ins| || r.quit
    decreases |ins|
  {
    if |ins| == 0 || w.quit then w else Play(Frame(w, ins[0]), ins[1..])
  }

  /** The flee and scatter invariants hold on every state the loop reaches. */
  lemma {:induction false} PlayKeepsInvariants(w: World, ins: seq<Input>)
    requires Sane(w) && FleeInv(w) && ScatterInv(w)
    ensures FleeInv(Play(w, ins)) && ScatterInv(Play(w, ins))
    decreases |ins|
  {
    if |ins| > 0 && !w.quit {
      FrameKeepsFlee(w, ins[0]);
      FrameKeepsScatter(w, ins[0]);
      PlayKeepsInvariants(Frame(w, ins[0]), ins[1..]);
    }
  }

  /** Over any run the death counter never decreases, and a run in which it reaches 11
      ends with `quit` set. */
  lemma {:induction false} PlayDeath(w: World, ins: seq<Input>)
    requires Sane(w)
    ensures w.death <= Play(w, ins).death
    ensures Play(w, ins).death == LastDeathFrame && w.death < LastDeathFrame ==> Play(w, ins).quit
    decreases |ins|
  {
    if |ins| > 0 && !w.quit {
      FrameDeath(w, ins[0]);
      PlayDeath(Frame(w, ins[0]), ins[1..]);
    }
  }

  /** A whole game from the start: the invariants hold throughout. */
  lemma GameKeepsInvariants(g: Grid, ins: seq<Input>)
    requires WellSized(g) && Enclosed(g)
    ensures FleeInv(Play(Start(g), ins)) && ScatterInv(Play(Start(g), ins))
  {
    StartInvariants(g);
    PlayKeepsInvariants(Start(g), ins);
  }

  /** The state `main` keeps on its stack: the loop flag, the frame counters, the board,
      the player and the three ghosts, each updated in place frame by frame. */
  class Game {
    var frame: int
    var fleeFrame: int
    var quit: bool
    const board: Board
    const player: Player
    const blinky: Blinky
    const pinky: Pinky
    const inky: Inky

    /** The four entities are separate objects. */
    ghost predicate Separate()
    {
      && player.body != blinky.body && player.body != pinky.body && player.body != inky.body
      && blinky.body != pinky.body && blinky.body != inky.body && pinky.body != inky.body
    }

    /** The game state as a value. */
    ghost function State(): World
      reads this, board.tiles, player, player.body, blinky.body, pinky.body, inky.body
      requires board.Shaped()
    {
      World(frame, fleeFrame, quit, board.Grid(), player.body.State(), player.death,
            blinky.body.State(), pinky.body.State(), inky.body.State())
    }

    ghost predicate Valid()
      reads this, board.tiles, player, player.body, blinky.body, pinky.body, inky.body
    {
      board.Valid() && Separate() && Sane(State())
    }

    /** The declarations before the loop: frame 0, flee frame 0, a fresh board, the player
        and the three ghosts at their spawn points. */
    constructor ()
      ensures Valid() && State() == Start(board.Grid())
      ensures board.Uncrossed()
    {
      quit := false;
      frame := 0;
      fleeFrame := 0;
      board := new Board();
      player := new Player();
      blinky := new Blinky();
      pinky := new Pinky();
      inky := new Inky();
    }

    /** The event loop: a window close sets `quit`, an arrow key requests the player's
        next turn. */
    method HandleEvents(input: Input)
      requires Valid()
      modifies this, player.body
      ensures Valid() && State() == Poll(old(State()), input)
    {
      if input.quit {
        quit := true;
      }
      match input.arrow
      case Some(d) => player.body.SetNextTurn(d);
      case None =>
    }

    /** `board.updateBoard(player)`. */
    method CrossOff()
      requires Valid()
      modifies board.tiles
      ensures Valid() && State() == Visit(old(State()))
    {
      VisitInBoard(player.body.State());
      MarkCrossedIdempotent(board.Grid(), Div8(player.body.y), Div8(player.body.x));
      board.UpdateBoard(player.body.x, player.body.y);
    }

    /** The power-pellet test and the flee timeout. */
    method UpdateFlee()
      requires Valid()
      modifies this, blinky.body, pinky.body, inky.body
      ensures Valid() && State() == Expiry(Pellet(old(State())))
    {
      var xTile := TileIndex(player.body.x);
      var yTile := TileIndex(player.body.y);
      if (yTile == 3 || yTile == 23) && (xTile == 1 || xTile == 26) {
        SetFleeAll(true);
        fleeFrame := frame;
      }
      if fleeFrame != 0 && frame == fleeFrame + 600 {
        SetFleeAll(false);
      }
    }

    /** `setFlee(b)` on the three ghosts. */
    method SetFleeAll(b: bool)
      requires Valid()
      modifies blinky.body, pinky.body, inky.body
      ensures Valid() && State() == FleeAll(old(State()), b)
    {
      blinky.body.SetFlee(b);
      pinky.body.SetFlee(b);
      inky.body.SetFlee(b);
    }

    /** Every third frame: kill the dying or caught player, ending the game on the last
        death frame, or else move it. */
    method PlayerTurn()
      requires Valid()
      modifies this, player, player.body
      ensures Valid() && State() == PlayerPhase(old(State()))
    {
      if frame % 3 == 0 {
        var caught := player.body.SharingTile(blinky.body) || player.body.SharingTile(pinky.body)
                      || player.body.SharingTile(inky.body);
        if player.death != 0 || (caught && !blinky.body.fleeMode) {
          player.Kill();
          if player.death == LastDeathFrame {
            quit := true;
          }
        } else {
          TickKeepsPositioned(player.body.State(), board.Grid());
          player.body.Update(board);
        }
      }
    }

    /** `setScatter(b)` on the three ghosts. */
    method SetScatterAll(b: bool)
      requires Valid()
      modifies blinky.body, pinky.body, inky.body
      ensures Valid() && State() == ScatterAll(old(State()), b)
    {
      blinky.body.SetScatter(b);
      pinky.body.SetScatter(b);
      inky.body.SetScatter(b);
    }

    /** The scatter schedule. */
    method ScatterTurn()
      requires Valid()
      modifies blinky.body, pinky.body, inky.body
      ensures Valid() && State() == Scatter(old(State()))
    {
      if frame % 1620 == 0 {
        SetScatterAll(true);
      } else if (frame + 1200) % 1620 == 0 {
        SetScatterAll(false);
      }
    }

    /** `blinky.decideTurn(board, player)` and `blinky.update(board)`. */
    method MoveBlinky()
      requires Valid()
      modifies blinky.body
      ensures Valid()
      ensures var w := old(State());
              State() == w.(blinky := Chase(w.blinky, w.grid, BlinkyGoal(w.blinky.scatterMode, w.player)))
    {
      blinky.DecideTurn(board, player.body.State());
      TickKeepsPositioned(blinky.body.State(), board.Grid());
      blinky.body.Update(board);
    }

    /** `pinky.decideTurn(board, player)` and `pinky.update(board)`. */
    method MovePinky()
      requires Valid()
      modifies pinky.body
      ensures Valid()
      ensures var w := old(State());
              State() == w.(pinky := Chase(w.pinky, w.grid, PinkyGoal(w.pinky.scatterMode, w.player)))
    {
      pinky.DecideTurn(board, player.body.State());
      TickKeepsPositioned(pinky.body.State(), board.Grid());
      pinky.body.Update(board);
    }

    /** `inky.decideTurn(board, player, blinky)` and `inky.update(board)`. */
    method MoveInky()
      requires Valid()
      modifies inky.body
      ensures Valid()
      ensures var w := old(State());
              State() == w.(inky := Chase(w.inky, w.grid, InkyGoal(w.inky.scatterMode, w.player, w.blinky)))
    {
      inky.DecideTurn(board, player.body.State(), blinky.body.State());
      TickKeepsPositioned(inky.body.State(), board.Grid());
      inky.body.Update(board);
    }

    /** Each ghost decides and moves; Inky decides after Blinky has moved. */
    method GhostsTurn()
      requires Valid()
      modifies blinky.body, pinky.body, inky.body
      ensures Valid() && State() == GhostsMove(old(State()))
    {
      MoveBlinky();
      MovePinky();
      MoveInky();
    }

    /** Every fourth frame while the player is alive: the scatter schedule and the
        ghosts. */
    method GhostTurn()
      requires Valid()
      modifies blinky.body, pinky.body, inky.body
      ensures Valid() && State() == GhostPhase(old(State()))
    {
      if frame % 4 == 0 && player.death == 0 {
        ScatterTurn();
        GhostsTurn();
      }
    }

    /** Everything before the player's turn. */
    method Prelude(input: Input)
      requires Valid()
      modifies this, board.tiles, player.body, blinky.body, pinky.body, inky.body
      ensures Valid() && State() == Prepare(old(State()), input)
    {
      HandleEvents(input);
      CrossOff();
      UpdateFlee();
    }

    /** One pass of the game loop without rendering. */
    method Step(input: Input)
      requires Valid()
      modifies this, board.tiles, player, player.body, blinky.body, pinky.body, inky.body
      ensures Valid() && State() == Frame(old(State()), input)
    {
      FrameParts(State(), input);
      Prelude(input);
      PlayerTurn();
      GhostTurn();
      ghost var g := State();
      frame := frame + 1;
      assert State() == g.(frame := g.frame + 1);
    }

    /** `while (!quit)`, one input per frame, until the inputs run out. */
    method Run(inputs: seq<Input>)
      requires Valid()
      modifies this, board.tiles, player, player.body, blinky.body, pinky.body, inky.body
      ensures Valid() && State() == Play(old(State()), inputs)
    {
      var i := 0;
      while i < |inputs| && !quit
        invariant 0 <= i <= |inputs| && Valid()
        invariant Play(old(State()), inputs) == Play(State(), inputs[i..])
        decreases |inputs| - i
      {
        assert inputs[i..][1..] == inputs[i + 1..];
        Step(inputs[i]);
        i := i + 1;
      }
    }
  }
}
