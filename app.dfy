/** Application-wide constants and the universal return-to-menu key handler. */
module App {
  import opened Wrappers
  import opened States

  /** The board is GRID_SIZE by GRID_SIZE cells; LINES_COUNT grid lines are drawn per axis. */
  const GRID_SIZE: nat := 3
  const LINES_COUNT: nat := GRID_SIZE + 1
  const CELLS: nat := GRID_SIZE * GRID_SIZE

  /** Transport constants: the handshake protocol identifier and the game's data port. */
  const PROTOCOL_ID: nat := 0
  const PORT: nat := 5000

  lemma BoardSize()
    ensures GRID_SIZE == 3 && CELLS == 9 && LINES_COUNT == 4
  {
  }

  /** A key of the keyboard; only Escape matters to the core. */
  datatype KeyCode = Escape | Other(code: nat)

  /** Scans the keys pressed this frame and requests MainMenu on the first Escape; `next` is
      the pending next phase before the scan, `next'` after it. */
  method ReturnToMainMenu(justPressed: seq<KeyCode>, next: Option<GameState>)
    returns (next': Option<GameState>)
    ensures Escape in justPressed ==> next' == Some(MainMenu)
    ensures Escape !in justPressed ==> next' == next
  {
    next' := next;
    for i := 0 to |justPressed|
      invariant Escape !in justPressed[..i]
      invariant next' == next
    {
      if justPressed[i] == Escape {
        next' := Some(MainMenu);
        break;
      }
    }
    assert justPressed[..|justPressed|] == justPressed;
  }
}
