/** The authoritative game engine: pick validation, the board view, win and draw detection,
    and the schedule of one tick of play. */
module Game {
  import opened Wrappers
  import opened Symbols
  import opened Players
  import opened App

  // ---------------------------------------------------------------------------
  // Pick validation
  // ---------------------------------------------------------------------------

  /** A pick request as the host receives it: the sender's identity and the requested cell
      index, which no one has checked yet. */
  datatype FromClient = FromClient(clientId: ClientId, index: nat)

  /** The outcome of the three checks on one request, in the order they are made. */
  datatype Verdict = Accept | OutOfRange | WrongTurn | AlreadyOccupied

  /** Some filled cell already has index `index`. */
  predicate IsOccupied(cells: seq<SymbolBundle>, index: nat)
  {
    exists i :: 0 <= i < |cells| && cells[i].cellIndex == index
  }

  /** The checks with the range guard as written: only an index strictly greater than the
      number of cells is refused, so index CELLS itself passes. */
  function CheckPickAsWritten(cells: seq<SymbolBundle>, players: seq<Player>, turn: Symbol, pick: FromClient): Verdict
  {
    if pick.index > CELLS then OutOfRange
    else if !HoldsSymbol(players, pick.clientId, turn) then WrongTurn
    else if IsOccupied(cells, pick.index) then AlreadyOccupied
    else Accept
  }

  /** The checks with the range guard the board needs: every index from CELLS up is refused. */
  function CheckPick(cells: seq<SymbolBundle>, players: seq<Player>, turn: Symbol, pick: FromClient): Verdict
  {
    if pick.index >= CELLS then OutOfRange
    else CheckPickAsWritten(cells, players, turn, pick)
  }

  /** The cells one run of the picking step spawns, as written: every request of the batch is
      checked against the same cells and the same turn, and each accepted one adds a cell. */
  function PickSpawns(events: seq<FromClient>, cells: seq<SymbolBundle>, players: seq<Player>, turn: Symbol)
    : seq<SymbolBundle>
    decreases |events|
  {
    if events == [] then []
    else
      var e := events[|events| - 1];
      var earlier := PickSpawns(events[..|events| - 1], cells, players, turn);
      if CheckPickAsWritten(cells, players, turn, e) == Accept then earlier + [SymbolBundle(turn, e.index)]
      else earlier
  }

  /** The picking step as written: a loop over the batch that skips a request at the first
      check it fails and otherwise spawns the turn's symbol at the requested index. */
  method PickingSystem(events: seq<FromClient>, cells: seq<SymbolBundle>, players: seq<Player>, turn: Symbol)
    returns (spawns: seq<SymbolBundle>)
    ensures spawns == PickSpawns(events, cells, players, turn)
  {
    spawns := [];
    for k := 0 to |events|
      invariant spawns == PickSpawns(events[..k], cells, players, turn)
    {
      var e := events[k];
      assert events[..k + 1][..k] == events[..k];
      if e.index > CELLS {
        continue;
      }
      if !HoldsSymbol(players, e.clientId, turn) {
        continue;
      }
      if IsOccupied(cells, e.index) {
        continue;
      }
      spawns := spawns + [SymbolBundle(turn, e.index)];
    }
    assert events[..|events|] == events;
  }

  /** The positions in a batch of the requests for cell `index` that the as-written checks
      accept. */
  function AcceptedAt(events: seq<FromClient>, cells: seq<SymbolBundle>, players: seq<Player>, turn: Symbol, index: nat)
    : set<nat>
  {
    set i: nat | i < |events| && events[i].index == index && CheckPickAsWritten(cells, players, turn, events[i]) == Accept
  }

  /** One more request adds its own position exactly when it is accepted for that cell. */
  lemma AcceptedAtSnoc(events: seq<FromClient>, cells: seq<SymbolBundle>, players: seq<Player>, turn: Symbol, index: nat)
    requires events != []
    ensures var n := |events| - 1;
            AcceptedAt(events, cells, players, turn, index)
            == AcceptedAt(events[..n], cells, players, turn, index)
               + if events[n].index == index && CheckPickAsWritten(cells, players, turn, events[n]) == Accept then {n} else {}
  {
    var n := |events| - 1;
    assert forall i :: 0 <= i < n ==> events[..n][i] == events[i];
  }

  /** A cell is spawned once for every accepted request at its index, and only with the turn's
      symbol: so two accepted requests for one cell spawn it twice, while a refused request
      never adds a copy. */
  lemma {:induction false} PickSpawnsCount(events: seq<FromClient>, cells: seq<SymbolBundle>, players: seq<Player>, turn: Symbol,
                                           b: SymbolBundle)
    ensures multiset(PickSpawns(events, cells, players, turn))[b]
            == if b.symbol != turn then 0 else |AcceptedAt(events, cells, players, turn, b.cellIndex)|
    decreases |events|
  {
    if events == [] {
      assert AcceptedAt(events, cells, players, turn, b.cellIndex) == {};
    } else {
      var n := |events| - 1;
      var front, e := events[..n], events[n];
      PickSpawnsCount(front, cells, players, turn, b);
      AcceptedAtSnoc(events, cells, players, turn, b.cellIndex);
      assert n !in AcceptedAt(front, cells, players, turn, b.cellIndex);
      var spawns := PickSpawns(front, cells, players, turn);
      if CheckPickAsWritten(cells, players, turn, e) == Accept {
        assert multiset(spawns + [SymbolBundle(turn, e.index)]) == multiset(spawns) + multiset{SymbolBundle(turn, e.index)};
      }
    }
  }

  /** Every spawned cell carries the turn's symbol, lies at an index the guard let through, was
      free, and was requested by a holder of the turn; every accepted request spawns, and each
      cell is spawned exactly as often as there are accepted requests at its index. */
  lemma {:induction false} PickSpawnsExact(events: seq<FromClient>, cells: seq<SymbolBundle>, players: seq<Player>, turn: Symbol)
    ensures |PickSpawns(events, cells, players, turn)| <= |events|
    ensures forall b :: b in PickSpawns(events, cells, players, turn) ==>
              b.symbol == turn && b.cellIndex <= CELLS && !IsOccupied(cells, b.cellIndex) &&
              exists i :: 0 <= i < |events| && events[i].index == b.cellIndex
                          && HoldsSymbol(players, events[i].clientId, turn)
                          && CheckPickAsWritten(cells, players, turn, events[i]) == Accept
    ensures forall i :: 0 <= i < |events| && CheckPickAsWritten(cells, players, turn, events[i]) == Accept ==>
              SymbolBundle(turn, events[i].index) in PickSpawns(events, cells, players, turn)
    ensures forall b :: multiset(PickSpawns(events, cells, players, turn))[b]
                        == if b.symbol != turn then 0 else |AcceptedAt(events, cells, players, turn, b.cellIndex)|
  {
    forall b: SymbolBundle
      ensures multiset(PickSpawns(events, cells, players, turn))[b]
              == if b.symbol != turn then 0 else |AcceptedAt(events, cells, players, turn, b.cellIndex)|
    {
      PickSpawnsCount(events, cells, players, turn, b);
    }
    if events != [] {
      var front := events[..|events| - 1];
      PickSpawnsExact(front, cells, players, turn);
      assert forall i :: 0 <= i < |front| ==> front[i] == events[i];
    }
  }

  /** Nothing outside the guard, nothing from a non-holder of the turn, nothing on a filled
      cell: a batch whose requests all fail some check spawns nothing. */
  lemma {:induction false} RejectedBatchSpawnsNothing(events: seq<FromClient>, cells: seq<SymbolBundle>, players: seq<Player>, turn: Symbol)
    requires forall i :: 0 <= i < |events| ==>
               events[i].index > CELLS || !HoldsSymbol(players, events[i].clientId, turn) || IsOccupied(cells, events[i].index)
    ensures PickSpawns(events, cells, players, turn) == []
  {
    if events != [] {
      var front := events[..|events| - 1];
      assert forall i :: 0 <= i < |front| ==> front[i] == events[i];
      RejectedBatchSpawnsNothing(front, cells, players, turn);
    }
  }

  /** The range guard as written lets index CELLS through on a board that has no such cell: it
      is spawned, and the cells then hold an index the board cannot hold. */
  lemma NineAdmittedAsWritten(cells: seq<SymbolBundle>, players: seq<Player>, turn: Symbol, client: ClientId)
    requires HoldsSymbol(players, client, turn)
    requires !IsOccupied(cells, CELLS)
    ensures CheckPickAsWritten(cells, players, turn, FromClient(client, CELLS)) == Accept
    ensures PickSpawns([FromClient(client, CELLS)], cells, players, turn) == [SymbolBundle(turn, CELLS)]
    ensures !InBoard(cells + PickSpawns([FromClient(client, CELLS)], cells, players, turn))
    ensures CheckPick(cells, players, turn, FromClient(client, CELLS)) == OutOfRange
  {
    var e := [FromClient(client, CELLS)];
    assert e[..0] == [];
    var all := cells + [SymbolBundle(turn, CELLS)];
    assert all[|cells|].cellIndex == CELLS;
  }

  /** Because the batch is checked against one snapshot, two requests from the holder of the
      turn in one batch are both accepted: two cells of one symbol in a single turn, and the
      same cell twice when both name one index. */
  lemma SameBatchDoublePick(cells: seq<SymbolBundle>, players: seq<Player>, turn: Symbol, client: ClientId, a: nat, b: nat)
    requires HoldsSymbol(players, client, turn)
    requires a < CELLS && b < CELLS && !IsOccupied(cells, a) && !IsOccupied(cells, b)
    ensures PickSpawns([FromClient(client, a), FromClient(client, b)], cells, players, turn)
            == [SymbolBundle(turn, a), SymbolBundle(turn, b)]
    ensures a == b ==> !CellsWellFormed(cells + [SymbolBundle(turn, a), SymbolBundle(turn, b)])
  {
    var e := [FromClient(client, a), FromClient(client, b)];
    assert e[..1] == [FromClient(client, a)];
    assert e[..1][..0] == [];
    assert PickSpawns(e[..1], cells, players, turn) == [SymbolBundle(turn, a)];
    var all := cells + [SymbolBundle(turn, a), SymbolBundle(turn, b)];
    assert all[|cells|] == SymbolBundle(turn, a) && all[|cells| + 1] == SymbolBundle(turn, b);
  }

  /** The corrected rule: the first request of the batch that passes the checks with the board's
      range guard is accepted, and no other. */
  function FirstAccepted(events: seq<FromClient>, cells: seq<SymbolBundle>, players: seq<Player>, turn: Symbol)
    : (r: Option<SymbolBundle>)
    decreases |events|
    ensures r.None? <==> forall i :: 0 <= i < |events| ==> CheckPick(cells, players, turn, events[i]) != Accept
    ensures r.Some? ==>
              r.value.symbol == turn && r.value.cellIndex < CELLS && !IsOccupied(cells, r.value.cellIndex) &&
              exists i :: 0 <= i < |events| && events[i].index == r.value.cellIndex
                          && HoldsSymbol(players, events[i].clientId, turn)
                          && forall j :: 0 <= j < i ==> CheckPick(cells, players, turn, events[j]) != Accept
  {
    if events == [] then None
    else if CheckPick(cells, players, turn, events[0]) == Accept then Some(SymbolBundle(turn, events[0].index))
    else
      var r := FirstAccepted(events[1..], cells, players, turn);
      assert forall i :: 1 <= i < |events| ==> events[i] == events[1..][i - 1];
      r
  }

  /** The cells a decision adds: none, or the one accepted. */
  function Spawned(decision: Option<SymbolBundle>): seq<SymbolBundle>
  {
    match decision
    case None => []
    case Some(b) => [b]
  }

  /** The corrected picking step: the same checks in the same order, with the board's range
      guard, and the loop stops at the first accepted request. */
  method AuthorizePicks(events: seq<FromClient>, cells: seq<SymbolBundle>, players: seq<Player>, turn: Symbol)
    returns (spawn: Option<SymbolBundle>)
    ensures spawn == FirstAccepted(events, cells, players, turn)
  {
    spawn := None;
    for k := 0 to |events|
      invariant spawn == None
      invariant FirstAccepted(events[k..], cells, players, turn) == FirstAccepted(events, cells, players, turn)
    {
      var e := events[k];
      assert events[k..][0] == e && events[k..][1..] == events[k + 1..];
      if e.index >= CELLS {
        continue;
      }
      if !HoldsSymbol(players, e.clientId, turn) {
        continue;
      }
      if IsOccupied(cells, e.index) {
        continue;
      }
      spawn := Some(SymbolBundle(turn, e.index));
      break;
    }
  }

  // ---------------------------------------------------------------------------
  // The board
  // ---------------------------------------------------------------------------

  /** Every filled cell lies on the board. */
  predicate InBoard(cells: seq<SymbolBundle>)
  {
    forall i :: 0 <= i < |cells| ==> cells[i].cellIndex < CELLS
  }

  /** Every filled cell lies on the board and no two share an index. */
  predicate CellsWellFormed(cells: seq<SymbolBundle>)
  {
    InBoard(cells) && forall i, j :: 0 <= i < j < |cells| ==> cells[i].cellIndex != cells[j].cellIndex
  }

  /** An accepted pick keeps the filled cells on the board and pairwise distinct. */
  lemma AcceptKeepsCellsWellFormed(events: seq<FromClient>, cells: seq<SymbolBundle>, players: seq<Player>, turn: Symbol)
    requires CellsWellFormed(cells)
    ensures CellsWellFormed(cells + Spawned(FirstAccepted(events, cells, players, turn)))
  {
    var d := FirstAccepted(events, cells, players, turn);
    if d.Some? {
      var all := cells + [d.value];
      forall i, j | 0 <= i < j < |all|
        ensures all[i].cellIndex != all[j].cellIndex
      {
        if j == |cells| {
          assert all[i] == cells[i];
        }
      }
    }
  }

  type BoardIndex = i: nat | i < CELLS

  /** The board view: one entry per cell, empty or holding a symbol. */
  type Board = b: seq<Option<Symbol>> | |b| == CELLS witness seq(CELLS, _ => None)

  /** The symbol the last filled cell with index `i` carries, if any. */
  function LastSymbolAt(cells: seq<SymbolBundle>, i: nat): Option<Symbol>
    decreases |cells|
  {
    if cells == [] then None
    else if cells[|cells| - 1].cellIndex == i then Some(cells[|cells| - 1].symbol)
    else LastSymbolAt(cells[..|cells| - 1], i)
  }

  /** The board the filled cells describe, later cells overwriting earlier ones. */
  function BoardOf(cells: seq<SymbolBundle>): Board
  {
    seq(CELLS, i requires 0 <= i => LastSymbolAt(cells, i))
  }

  /** Filling one more cell writes its symbol at its index and changes no other entry. */
  lemma BoardOfSnoc(cells: seq<SymbolBundle>, c: SymbolBundle)
    requires c.cellIndex < CELLS
    ensures BoardOf(cells + [c]) == BoardOf(cells)[c.cellIndex := Some(c.symbol)]
  {
    assert (cells + [c])[..|cells|] == cells;
  }

  /** Builds the board by writing each filled cell's symbol into a fresh array of empty cells;
      indexing the array demands that every filled cell lies on the board. */
  method BuildBoard(cells: seq<SymbolBundle>) returns (board: Board)
    requires InBoard(cells)
    ensures board == BoardOf(cells)
  {
    var a := new Option<Symbol>[CELLS](_ => None);
    for k := 0 to |cells|
      invariant a[..] == BoardOf(cells[..k])
    {
      assert cells[..k + 1][..k] == cells[..k];
      a[cells[k].cellIndex] := Some(cells[k].symbol);
    }
    assert cells[..|cells|] == cells;
    board := a[..];
  }

  lemma {:induction false} LastSymbolAtMeaning(cells: seq<SymbolBundle>, i: nat, s: Symbol)
    requires CellsWellFormed(cells)
    ensures LastSymbolAt(cells, i) == Some(s) <==> SymbolBundle(s, i) in cells
  {
    if cells != [] {
      var front := cells[..|cells| - 1];
      assert CellsWellFormed(front) by {
        assert forall k :: 0 <= k < |front| ==> front[k] == cells[k];
      }
      LastSymbolAtMeaning(front, i, s);
      assert cells == front + [cells[|cells| - 1]];
      assert forall k :: 0 <= k < |front| ==> front[k].cellIndex != cells[|cells| - 1].cellIndex;
    }
  }

  /** With well-formed cells, the board holds symbol `s` at index `i` exactly when the cell
      (s, i) was filled. */
  lemma BoardOfMeaning(cells: seq<SymbolBundle>)
    requires CellsWellFormed(cells)
    ensures forall i: BoardIndex, s: Symbol :: BoardOf(cells)[i] == Some(s) <==> SymbolBundle(s, i) in cells
  {
    forall i: BoardIndex, s: Symbol
      ensures BoardOf(cells)[i] == Some(s) <==> SymbolBundle(s, i) in cells
    {
      LastSymbolAtMeaning(cells, i, s);
    }
  }

  /** Adding cells never empties or changes a cell that was already filled. */
  lemma OccupantsPersist(cells: seq<SymbolBundle>, added: seq<SymbolBundle>)
    requires CellsWellFormed(cells + added)
    ensures forall i: BoardIndex :: BoardOf(cells)[i].Some? ==> BoardOf(cells + added)[i] == BoardOf(cells)[i]
  {
    var all := cells + added;
    assert CellsWellFormed(cells) by {
      assert forall k :: 0 <= k < |cells| ==> cells[k] == all[k];
    }
    BoardOfMeaning(cells);
    BoardOfMeaning(all);
    forall i: BoardIndex | BoardOf(cells)[i].Some?
      ensures BoardOf(all)[i] == BoardOf(cells)[i]
    {
      var s := BoardOf(cells)[i].value;
      assert SymbolBundle(s, i) in all;
    }
  }

  // ---------------------------------------------------------------------------
  // Win and draw detection
  // ---------------------------------------------------------------------------

  type Line = (BoardIndex, BoardIndex, BoardIndex)

  /** The eight straight lines of the board, in the order they are scanned: rows, columns,
      then the two diagonals. */
  const WIN_CONDITIONS: seq<Line> :=
    [(0, 1, 2), (3, 4, 5), (6, 7, 8), (0, 3, 6), (1, 4, 7), (2, 5, 8), (0, 4, 8), (2, 4, 6)]

  /** All three cells of the line are filled, with one symbol. */
  predicate LineWins(board: Board, line: Line)
  {
    board[line.0].Some? && board[line.0] == board[line.1] && board[line.1] == board[line.2]
  }

  predicate IsFull(board: Board)
  {
    forall i :: 0 <= i < |board| ==> board[i].Some?
  }

  /** The position, from `k` on, of the first winning line. */
  function FirstWinningLine(board: Board, k: nat): (r: Option<nat>)
    requires k <= |WIN_CONDITIONS|
    decreases |WIN_CONDITIONS| - k
    ensures r.Some? ==> k <= r.value < |WIN_CONDITIONS| && LineWins(board, WIN_CONDITIONS[r.value])
                        && forall j :: k <= j < r.value ==> !LineWins(board, WIN_CONDITIONS[j])
    ensures r.None? ==> forall j :: k <= j < |WIN_CONDITIONS| ==> !LineWins(board, WIN_CONDITIONS[j])
  {
    if k == |WIN_CONDITIONS| then None
    else if LineWins(board, WIN_CONDITIONS[k]) then Some(k)
    else FirstWinningLine(board, k + 1)
  }

  datatype Outcome = Win(symbol: Symbol) | Draw | Continue

  /** A win for the symbol of the first complete line; otherwise a draw when every cell is
      filled; otherwise the game goes on. */
  function Evaluate(board: Board): (r: Outcome)
    ensures r.Win? <==> exists k :: 0 <= k < |WIN_CONDITIONS| && LineWins(board, WIN_CONDITIONS[k])
    ensures r.Win? ==> exists k :: 0 <= k < |WIN_CONDITIONS| && LineWins(board, WIN_CONDITIONS[k])
                                   && board[WIN_CONDITIONS[k].0] == Some(r.symbol)
                                   && forall j :: 0 <= j < k ==> !LineWins(board, WIN_CONDITIONS[j])
    ensures r == Draw <==> (forall k :: 0 <= k < |WIN_CONDITIONS| ==> !LineWins(board, WIN_CONDITIONS[k])) && IsFull(board)
    ensures r == Continue <==> (forall k :: 0 <= k < |WIN_CONDITIONS| ==> !LineWins(board, WIN_CONDITIONS[k])) && !IsFull(board)
  {
    match FirstWinningLine(board, 0)
    case Some(k) => Win(board[WIN_CONDITIONS[k].0].value)
    case None => if IsFull(board) then Draw else Continue
  }

  /** The scan as written: the lines in order, returning on the first complete one, then the
      full-board test. */
  method ScanWinConditions(board: Board) returns (r: Outcome)
    ensures r == Evaluate(board)
  {
    for k := 0 to |WIN_CONDITIONS|
      invariant FirstWinningLine(board, k) == FirstWinningLine(board, 0)
    {
      var line := WIN_CONDITIONS[k];
      if board[line.0].Some? && board[line.0] == board[line.1] && board[line.1] == board[line.2] {
        return Win(board[line.0].value);
      }
    }
    if IsFull(board) {
      r := Draw;
    } else {
      r := Continue;
    }
  }

  /** A winning move that fills the last cell is a win, not a draw. */
  lemma WinBeatsDraw(board: Board, k: nat)
    requires k < |WIN_CONDITIONS| && LineWins(board, WIN_CONDITIONS[k])
    ensures Evaluate(board).Win? && Evaluate(board) != Draw
  {
  }

  /** Cross at 0 and 1, Nought at 4: no line, empty cells left, the game goes on. */
  lemma ScenarioOpenBoard()
    ensures Evaluate(BoardOf([SymbolBundle(Cross, 0), SymbolBundle(Nought, 4), SymbolBundle(Cross, 1)])) == Continue
  {
    var c0, c1, c2 := SymbolBundle(Cross, 0), SymbolBundle(Nought, 4), SymbolBundle(Cross, 1);
    BoardOfSnoc([], c0);
    BoardOfSnoc([c0], c1);
    BoardOfSnoc([c0, c1], c2);
    assert [] + [c0] == [c0] && [c0] + [c1] == [c0, c1] && [c0, c1] + [c2] == [c0, c1, c2];
    var none: Option<Symbol> := None;
    assert BoardOf([]) == [none, none, none, none, none, none, none, none, none];
    assert BoardOf([c0, c1, c2]) == [Some(Cross), Some(Cross), none, none, Some(Nought), none, none, none, none];
  }

  /** Every cell filled and no line complete: a draw. */
  lemma ScenarioFullBoard()
    ensures Evaluate([Some(Cross), Some(Nought), Some(Cross), Some(Cross), Some(Nought), Some(Nought),
                      Some(Nought), Some(Cross), Some(Cross)]) == Draw
  {
  }

  // ---------------------------------------------------------------------------
  // One frame of play
  // ---------------------------------------------------------------------------

  /** What one frame of play starts from: the cells the systems see, the cells whose spawn was
      applied at the end of the previous frame (what the turn advance's run condition sees as
      added), and the symbol to move. */
  datatype Frame = Frame(cells: seq<SymbolBundle>, justAdded: seq<SymbolBundle>, turn: Symbol)

  /** The symbol to move after the advance step of a frame, which runs only when cells were
      added and passes the turn only when the game goes on. */
  function AdvancedTurn(f: Frame): Symbol
  {
    if f.justAdded != [] && Evaluate(BoardOf(f.cells)) == Continue then f.turn.Next() else f.turn
  }

  /** One frame as the source schedules it: the picking step decides against the cells and the
      turn the frame starts with, the advance step looks at the cells added by the previous
      frame, and the picking step's spawns are applied at the end of the frame. It describes
      the source only while every cell lies on the board: a cell at index 9, which the
      as-written guard lets through (`NineAdmittedAsWritten`), makes the source's board build
      fail, while `BoardOf` here ignores it. */
  function FrameAsWritten(f: Frame, events: seq<FromClient>, players: seq<Player>): Frame
  {
    var spawn := PickSpawns(events, f.cells, players, f.turn);
    Frame(f.cells + spawn, spawn, AdvancedTurn(f))
  }

  /** The corrected frame: the picking step considers requests only when no accepted cell is
      still waiting for its turn advance. */
  function FrameCorrected(f: Frame, events: seq<FromClient>, players: seq<Player>): Frame
  {
    var spawn := if f.justAdded == [] then Spawned(FirstAccepted(events, f.cells, players, f.turn)) else [];
    Frame(f.cells + spawn, spawn, AdvancedTurn(f))
  }

  /** The symbols on the board alternate starting with Cross, the only cell waiting for its
      turn advance is the last one, and the symbol to move follows the last cell: its own
      symbol while it waits, the other one after. */
  predicate Alternating(f: Frame)
  {
    CellsWellFormed(f.cells) &&
    (forall i :: 0 < i < |f.cells| ==> f.cells[i].symbol == f.cells[i - 1].symbol.Next()) &&
    (f.cells == [] ==> f.justAdded == [] && f.turn == Cross) &&
    (f.cells != [] ==>
       f.cells[0].symbol == Cross &&
       (f.justAdded == [] || f.justAdded == [f.cells[|f.cells| - 1]]) &&
       f.turn == if f.justAdded == [] then f.cells[|f.cells| - 1].symbol.Next() else f.cells[|f.cells| - 1].symbol)
  }

  /** While the game goes on, corrected frames keep the symbols alternating: no one places two
      cells in a row, and no one loses a turn. */
  lemma FrameCorrectedAlternates(f: Frame, events: seq<FromClient>, players: seq<Player>)
    requires Alternating(f)
    requires f.justAdded != [] ==> Evaluate(BoardOf(f.cells)) == Continue
    ensures Alternating(FrameCorrected(f, events, players))
  {
    var g := FrameCorrected(f, events, players);
    if f.justAdded == [] {
      AcceptKeepsCellsWellFormed(events, f.cells, players, f.turn);
      var d := FirstAccepted(events, f.cells, players, f.turn);
      if d.Some? {
        assert g.cells == f.cells + [d.value] && g.justAdded == [d.value] && g.turn == f.turn;
        assert g.cells[|g.cells| - 1] == d.value;
        forall i | 0 < i < |g.cells|
          ensures g.cells[i].symbol == g.cells[i - 1].symbol.Next()
        {
          if i < |f.cells| {
            assert g.cells[i] == f.cells[i] && g.cells[i - 1] == f.cells[i - 1];
          } else {
            assert g.cells[i - 1] == f.cells[|f.cells| - 1];
          }
        }
      }
    } else {
      assert g.cells == f.cells && g.justAdded == [] && g.turn == f.turn.Next();
    }
  }

  /** The boards of the frame counterexample below: Cross on 0, then Cross on 0 and 1. */
  lemma CrossOpeningBoards()
    ensures Evaluate(BoardOf([SymbolBundle(Cross, 0)])) == Continue
    ensures Evaluate(BoardOf([SymbolBundle(Cross, 0), SymbolBundle(Cross, 1)])) == Continue
  {
    var c0, c1 := SymbolBundle(Cross, 0), SymbolBundle(Cross, 1);
    var none: Option<Symbol> := None;
    BoardOfSnoc([], c0);
    assert [] + [c0] == [c0];
    assert BoardOf([]) == [none, none, none, none, none, none, none, none, none];
    BoardOfSnoc([c0], c1);
    assert [c0] + [c1] == [c0, c1];
    assert BoardOf([c0, c1]) == [Some(Cross), Some(Cross), none, none, none, none, none, none, none];
  }

  /** Cross's request for cell 1 while Cross is to move and only cell 0 is filled is accepted
      by the picking step as written. */
  lemma CrossSecondRequestSpawns()
    ensures PickSpawns([FromClient(SERVER_ID, 1)], [SymbolBundle(Cross, 0)], [Player(SERVER_ID, Cross), Player(1, Nought)], Cross)
            == [SymbolBundle(Cross, 1)]
  {
    var players := [Player(SERVER_ID, Cross), Player(1, Nought)];
    assert HoldsSymbol(players, SERVER_ID, Cross) by { assert players[0] == Player(SERVER_ID, Cross); }
    assert !IsOccupied([SymbolBundle(Cross, 0)], 1);
  }

  /** Frame as written: Cross's cell on 0 was applied at the end of the last frame, and Cross
      sends a request for 1 before the turn has passed. The picking step still sees Cross to
      move and takes the cell while the advance hands the turn to Nought, and the advance of
      the next frame hands it back to Cross: Cross holds two cells in a row and Nought never
      moved. The corrected frame refuses the request. */
  lemma SecondPickBeforeAdvanceAsWritten()
    ensures var players := [Player(SERVER_ID, Cross), Player(1, Nought)];
            var f := Frame([SymbolBundle(Cross, 0)], [SymbolBundle(Cross, 0)], Cross);
            var g := Frame([SymbolBundle(Cross, 0), SymbolBundle(Cross, 1)], [SymbolBundle(Cross, 1)], Nought);
            Alternating(f) && Evaluate(BoardOf(f.cells)) == Continue
            && FrameAsWritten(f, [FromClient(SERVER_ID, 1)], players) == g && !Alternating(g)
            && FrameAsWritten(g, [], players).turn == Cross
            && FrameCorrected(f, [FromClient(SERVER_ID, 1)], players) == Frame(f.cells, [], Nought)
  {
    var c0, c1 := SymbolBundle(Cross, 0), SymbolBundle(Cross, 1);
    CrossOpeningBoards();
    CrossSecondRequestSpawns();
    assert [c0] + [c1] == [c0, c1];
    assert [c0, c1][1].symbol != [c0, c1][0].symbol.Next();
  }
}
