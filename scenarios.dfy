/** Whole games played through a session in hotseat mode, from the main menu to the end. */
module Scenarios {
  import opened Wrappers
  import opened Symbols
  import opened Players
  import opened States
  import opened Server
  import opened Sessions
  import Game

  /** The moves of the top-row game, in order. */
  const C0: SymbolBundle := SymbolBundle(Cross, 0)
  const N3: SymbolBundle := SymbolBundle(Nought, 3)
  const C1: SymbolBundle := SymbolBundle(Cross, 1)
  const N4: SymbolBundle := SymbolBundle(Nought, 4)
  const C2: SymbolBundle := SymbolBundle(Cross, 2)

  /** In hotseat the free cell in range a user clicks is taken by whichever symbol has the turn. */
  lemma HotseatAccepts(cells: seq<SymbolBundle>, turn: Symbol, index: nat)
    requires index < App.CELLS && !Game.IsOccupied(cells, index)
    ensures Game.FirstAccepted([Game.FromClient(SERVER_ID, index)], cells, HotseatSeats(), turn)
            == Some(SymbolBundle(turn, index))
  {
    HotseatEveryTurnIsLocal(turn);
    assert HoldsSymbol(HotseatSeats(), SERVER_ID, turn);
  }

  /** In hotseat the winner named for either symbol is this process's identity. */
  lemma HotseatWinnerIsLocal(s: Symbol)
    ensures FirstHolder(HotseatSeats(), s) == Some(SERVER_ID)
  {
    HotseatSetup();
  }

  // The board views along the top-row game, one move at a time.

  lemma BoardAfterC0()
    ensures Game.BoardOf([] + [C0]) == [Some(Cross), None, None, None, None, None, None, None, None]
  {
    Game.BoardOfSnoc([], C0);
    var none: Option<Symbol> := None;
    assert Game.BoardOf([]) == [none, none, none, none, none, none, none, none, none];
  }

  lemma BoardAfterN3()
    ensures Game.BoardOf([C0] + [N3]) == [Some(Cross), None, None, Some(Nought), None, None, None, None, None]
  {
    BoardAfterC0();
    assert [] + [C0] == [C0];
    Game.BoardOfSnoc([C0], N3);
  }

  lemma BoardAfterC1()
    ensures Game.BoardOf([C0, N3] + [C1])
            == [Some(Cross), Some(Cross), None, Some(Nought), None, None, None, None, None]
  {
    BoardAfterN3();
    assert [C0] + [N3] == [C0, N3];
    Game.BoardOfSnoc([C0, N3], C1);
  }

  lemma BoardAfterN4()
    ensures Game.BoardOf([C0, N3, C1] + [N4])
            == [Some(Cross), Some(Cross), None, Some(Nought), Some(Nought), None, None, None, None]
  {
    BoardAfterC1();
    assert [C0, N3] + [C1] == [C0, N3, C1];
    Game.BoardOfSnoc([C0, N3, C1], N4);
  }

  lemma BoardAfterC2()
    ensures Game.BoardOf([C0, N3, C1, N4] + [C2])
            == [Some(Cross), Some(Cross), Some(Cross), Some(Nought), Some(Nought), None, None, None, None]
  {
    BoardAfterN4();
    assert [C0, N3, C1] + [N4] == [C0, N3, C1, N4];
    Game.BoardOfSnoc([C0, N3, C1, N4], C2);
  }

  /** The first two moves of the top-row game complete no line and leave cells free. */
  lemma TopRowFirstMoves()
    ensures Game.Evaluate(Game.BoardOf([] + [C0])) == Game.Continue
    ensures Game.Evaluate(Game.BoardOf([C0] + [N3])) == Game.Continue
  {
    BoardAfterC0();
    BoardAfterN3();
  }

  /** Nor do the third and fourth. */
  lemma TopRowNextMoves()
    ensures Game.Evaluate(Game.BoardOf([C0, N3] + [C1])) == Game.Continue
    ensures Game.Evaluate(Game.BoardOf([C0, N3, C1] + [N4])) == Game.Continue
  {
    BoardAfterC1();
    BoardAfterN4();
  }

  /** The fifth move completes the top row for Cross. */
  lemma TopRowFinish()
    ensures Game.Evaluate(Game.BoardOf([C0, N3, C1, N4] + [C2])) == Game.Win(Cross)
  {
    BoardAfterC2();
  }

  /** Choosing hotseat from the main menu: one step enters hotseat and seats both symbols on
      this process, the next enters the game with Cross to move on an empty board. */
  method StartHotseat() returns (s: Session)
    ensures fresh(s) && fresh(s.turn) && fresh(s.winner) && fresh(s.playersInGame)
    ensures s.Valid() && s.phase == Playing && s.nextPhase == None && s.client.None?
    ensures s.cells == [] && s.justAdded == [] && s.turn.symbol == Cross && s.playersInGame.players == HotseatSeats()
  {
    s := new Session();
    s.nextPhase := Some(Hotseat);
    s.ApplyTransitions(0);
    s.ApplyTransitions(0);
  }

  /** The tick in which the local user clicks a free cell in hotseat: it is always the local
      user's turn, the request is accepted for the symbol to move, and its cell is spawned at
      the end of the tick while the turn stays. */
  method HotseatClick(s: Session, index: nat)
    requires s.Valid() && s.phase == Playing && s.client.None? && s.playersInGame.players == HotseatSeats()
    requires s.justAdded == [] && index < App.CELLS && !Game.IsOccupied(s.cells, index)
    modifies s`cells, s`justAdded, s`nextPhase, s`winner, s.turn
    ensures s.Valid() && s.phase == Playing && s.client.None? && s.playersInGame.players == HotseatSeats()
    ensures s.turn == old(s.turn) && s.winner == old(s.winner) && s.nextPhase == old(s.nextPhase)
    ensures s.cells == old(s.cells) + [SymbolBundle(old(s.turn.symbol), index)]
    ensures s.justAdded == [SymbolBundle(old(s.turn.symbol), index)] && s.turn.symbol == old(s.turn.symbol)
  {
    HotseatEveryTurnIsLocal(s.turn.symbol);
    var click := s.LocalClick(index);
    assert click == [Game.FromClient(SERVER_ID, index)];
    HotseatAccepts(s.cells, s.turn.symbol, index);
    s.PlayingFrame(click);
  }

  /** The tick after a cell was spawned on a board that completes no line and has free cells:
      the turn passes. */
  method AdvanceTick(s: Session)
    requires s.Valid() && s.phase == Playing && s.justAdded != []
    requires Game.Evaluate(Game.BoardOf(s.cells)) == Game.Continue
    modifies s`cells, s`justAdded, s`nextPhase, s`winner, s.turn
    ensures s.Valid() && s.phase == Playing && s.client == old(s.client) && s.playersInGame == old(s.playersInGame)
    ensures s.turn == old(s.turn) && s.winner == old(s.winner) && s.nextPhase == old(s.nextPhase)
    ensures s.cells == old(s.cells) && s.justAdded == [] && s.turn.symbol == old(s.turn.symbol).Next()
  {
    s.PlayingFrame([]);
  }

  /** One move in hotseat that does not end the game, over two ticks: the local user clicks a
      free cell, the picking step takes it for the symbol to move, and in the next tick the
      turn passes. */
  method HotseatMove(s: Session, index: nat)
    requires s.Valid() && s.phase == Playing && s.client.None? && s.playersInGame.players == HotseatSeats()
    requires s.justAdded == [] && index < App.CELLS && !Game.IsOccupied(s.cells, index)
    requires Game.Evaluate(Game.BoardOf(s.cells + [SymbolBundle(s.turn.symbol, index)])) == Game.Continue
    modifies s`cells, s`justAdded, s`nextPhase, s`winner, s.turn
    ensures s.Valid() && s.phase == Playing && s.client.None? && s.playersInGame.players == HotseatSeats()
    ensures s.turn == old(s.turn) && s.winner == old(s.winner) && s.nextPhase == old(s.nextPhase)
    ensures s.cells == old(s.cells) + [SymbolBundle(old(s.turn.symbol), index)] && s.justAdded == []
    ensures s.turn.symbol == old(s.turn.symbol).Next()
  {
    HotseatClick(s, index);
    AdvanceTick(s);
  }

  /** The move in hotseat that completes a line: in the tick after the click the game is
      requested to end with this process's identity as winner. */
  method HotseatWinningMove(s: Session, index: nat)
    requires s.Valid() && s.phase == Playing && s.client.None? && s.playersInGame.players == HotseatSeats()
    requires s.justAdded == [] && index < App.CELLS && !Game.IsOccupied(s.cells, index)
    requires Game.Evaluate(Game.BoardOf(s.cells + [SymbolBundle(s.turn.symbol, index)])) == Game.Win(s.turn.symbol)
    modifies s`cells, s`justAdded, s`nextPhase, s`winner, s.turn
    ensures s.Valid() && s.phase == Playing && s.client.None? && s.playersInGame.players == HotseatSeats()
    ensures s.turn == old(s.turn) && (s.winner == old(s.winner) || fresh(s.winner))
    ensures s.cells == old(s.cells) + [SymbolBundle(old(s.turn.symbol), index)]
    ensures s.nextPhase == Some(GameOver) && s.winner.clientId == Some(SERVER_ID)
  {
    HotseatWinnerIsLocal(s.turn.symbol);
    HotseatClick(s, index);
    s.PlayingFrame([]);
  }

  /** Cross on 0, then Nought on 3: the game goes on with Cross to move. */
  method TopRowOpeningMoves(s: Session)
    requires s.Valid() && s.phase == Playing && s.nextPhase == None && s.client.None?
    requires s.cells == [] && s.justAdded == [] && s.turn.symbol == Cross && s.playersInGame.players == HotseatSeats()
    modifies s`cells, s`justAdded, s`nextPhase, s`winner, s.turn
    ensures s.Valid() && s.phase == Playing && s.nextPhase == None && s.client.None?
    ensures s.turn == old(s.turn) && s.winner == old(s.winner)
    ensures s.cells == [C0, N3] && s.justAdded == [] && s.turn.symbol == Cross && s.playersInGame.players == HotseatSeats()
  {
    TopRowFirstMoves();
    HotseatMove(s, 0);
    assert s.cells == [C0];
    HotseatMove(s, 3);
  }

  /** Then Cross on 1 and Nought on 4: the game still goes on with Cross to move. */
  method TopRowMiddleMoves(s: Session)
    requires s.Valid() && s.phase == Playing && s.nextPhase == None && s.client.None?
    requires s.cells == [C0, N3] && s.justAdded == [] && s.turn.symbol == Cross && s.playersInGame.players == HotseatSeats()
    modifies s`cells, s`justAdded, s`nextPhase, s`winner, s.turn
    ensures s.Valid() && s.phase == Playing && s.nextPhase == None && s.client.None?
    ensures s.turn == old(s.turn) && s.winner == old(s.winner)
    ensures s.cells == [C0, N3, C1, N4] && s.justAdded == [] && s.turn.symbol == Cross && s.playersInGame.players == HotseatSeats()
  {
    TopRowNextMoves();
    HotseatMove(s, 1);
    assert s.cells == [C0, N3, C1];
    HotseatMove(s, 4);
  }

  /** Cross completes the top row on its third move: the next step ends the game with this
      process's client identity as winner. */
  method HotseatTopRowWin() returns (phase: GameState, winner: Option<ClientId>)
    ensures phase == GameOver && winner == Some(SERVER_ID)
  {
    var s := StartHotseat();
    TopRowOpeningMoves(s);
    TopRowMiddleMoves(s);
    TopRowFinish();
    HotseatWinningMove(s, 2);
    s.ApplyTransitions(0);
    phase, winner := s.phase, s.winner.clientId;
  }

  /** The picking step's decision for Nought's click on the cell Cross holds. */
  lemma OccupiedRefused()
    ensures Game.FirstAccepted([Game.FromClient(SERVER_ID, 0)], [C0], HotseatSeats(), Nought) == None
  {
    HotseatSetup();
    assert HoldsSymbol(HotseatSeats(), SERVER_ID, Nought) by { assert HotseatSeats()[1] == Player(SERVER_ID, Nought); }
    assert Game.IsOccupied([C0], 0) by { assert [C0][0].cellIndex == 0; }
    assert Game.CheckPick([C0], HotseatSeats(), Nought, Game.FromClient(SERVER_ID, 0)) == Game.AlreadyOccupied;
  }

  /** Nought clicking the cell Cross already holds is refused: the board and the turn stay,
      and no turn advance follows. */
  method HotseatOccupiedCellRefused() returns (cells: seq<SymbolBundle>, justAdded: seq<SymbolBundle>, turn: Symbol)
    ensures cells == [C0] && justAdded == [] && turn == Nought
  {
    var s := StartHotseat();
    TopRowFirstMoves();
    HotseatMove(s, 0);
    assert s.cells == [C0];
    OccupiedRefused();
    HotseatEveryTurnIsLocal(s.turn.symbol);
    var click := s.LocalClick(0);
    s.PlayingFrame(click);
    cells, justAdded, turn := s.cells, s.justAdded, s.turn.symbol;
  }
}
