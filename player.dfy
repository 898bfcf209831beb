/** The player (pacman.cpp, class Player): an entity with a death counter that runs from
    0 (alive) through the death animation and stops at 11. */
module Hero {
  import opened Geometry
  import opened Movement

  /** The last death-animation frame; reaching it ends the game. */
  const LastDeathFrame := 11

  /** `Player::kill` on the counter: one more animation frame, up to 11. */
  function Killed(death: int): (r: int)
    ensures death <= r <= death + 1
    ensures death < LastDeathFrame ==> r == death + 1
    ensures LastDeathFrame <= death ==> r == death
  {
    if death < LastDeathFrame then death + 1 else death
  }

  /** `n` kills in a row. */
  function KilledTimes(death: int, n: nat): int
  {
    if n == 0 then death else Killed(KilledTimes(death, n - 1))
  }

  /** From any counter in [0, 11], `n` kills leave it at `min(death + n, 11)`: the counter
      never decreases, never passes 11, and stays there once it arrives. */
  lemma {:induction false} KillsSaturate(death: int, n: nat)
    requires 0 <= death <= LastDeathFrame
    ensures KilledTimes(death, n) == Min(death + n, LastDeathFrame)
  {
    if n > 0 {
      KillsSaturate(death, n - 1);
    }
  }

  /** `Player`. The source derives it from `Entity`; here it holds its entity. */
  class Player {
    const body: Entity
    var death: int

    /** `Player()`: at (15, 13) facing right, no turn requested, alive. */
    constructor ()
      ensures fresh(body) && body.State() == PlayerSpawn && death == 0
    {
      body := new Entity.Spawn(15, 13, Right);
      death := 0;
    }

    /** `Player::kill`. */
    method Kill()
      modifies this
      ensures death == Killed(old(death))
    {
      if death < LastDeathFrame {
        death := death + 1;
      }
    }
  }
}
