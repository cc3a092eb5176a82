# Tic-tac-toe over a local network: a verified model

This project models the core of a two-player tic-tac-toe game built on an entity-component
game engine with a replication library. One process is authoritative: the host in a network
game, or the single process in hotseat mode. It validates cell picks, fills cells and decides
wins and draws. Clients send picks and receive the resulting cells. A small UDP protocol lets
a client find hosts on the local network.

The model is split into modules:

- `Symbols`: the two markers (`Cross` moves first) and the filled-cell bundle.
- `Players`: connection identities and the players that hold a symbol.
- `Resources`: the mutable `CurrentTurn` and `Winner` resources, as classes.
- `Utils`: the run condition that lets the local user pick.
- `App`: the board and transport constants, and the return-to-menu key handler.
- `Game`: pick validation is modelled twice. `PickingSystem` follows the code as written and
  `AuthorizePicks` is the corrected rule. The module also builds the board view
  (`BuildBoard`, a loop over a fresh array) and evaluates win or draw
  (`ScanWinConditions`). Each method is proved against a specification function, whose
  meaning is proved in its turn.
- `Discovery`: the responder's reply rule, the requester's list of found hosts (a class
  whose method appends in place) and the properties of whole runs.
- `Server`: seating in hotseat and in a hosted game, and the effect of connect and disconnect
  events.
- `Sessions`: the `Session` class holds the phase machine and the state it owns. It has one
  method per step of the application tick, and enter hooks that build and tear down a
  session. Pending phase changes are fields that `ApplyTransitions` applies between ticks.
- `Scenarios`: whole hotseat games played through a `Session`.

Spawns and despawns are deferred by the engine, and the model keeps that delay where the
rules depend on it. Within one run of a step, queries see the world as it was before the step,
so the picking step checks every request of a batch against one snapshot of the cells, and
the connection handler reads the host's seat from a snapshot. The play steps run once per
tick (`Session.PlayingFrame`, `Game.Frame`): a cell accepted in one tick is spawned at its
end, and only the next tick's turn advance sees it and passes the turn.

In two places the model follows the code rather than the game's stated intent:

- A pick that is accepted does not itself pass the turn. The turn only passes in the
  turn-advance step of the following tick, after the board is evaluated
  (src/game.rs:29, 294-298).
- The range check on a picked cell index is meant to refuse every index off the board. The
  code's guard lets index 9 through (see Findings).

## Model

| member | source | states |
|---|---|---|
| Symbols.NextIsFlip | src/components/symbol.rs:31-36 | the next symbol always differs, and taking the next one twice gives back the original |
| Symbols.ExactlyTwoSymbols | src/components/symbol.rs:9-36 | there are exactly the two symbols, each one's next is the other, and the default is Cross |
| Symbols.DisplayNames | src/components/symbol.rs:39-46 | the display names are "cross" and "nought", so the two symbols never display alike |
| Symbols.BundleRoundTrip | src/components/symbol.rs:55-62 | a filled cell made from a symbol and an index carries that symbol and that index |
| Players.HoldsSymbol | src/game.rs:191-193 | the answer is true exactly when some player in the list has the given identity and the given symbol |
| Players.FirstHolder | src/game.rs:285-288 | None exactly when no player holds the symbol; otherwise the identity of a holder with no holder before it |
| Resources.CurrentTurn.Default | src/resources.rs:19-21 | the default turn resource holds the default symbol, Cross |
| Resources.CurrentTurn.constructor | src/resources.rs:24-26 | the new resource holds the given symbol |
| Resources.CurrentTurn.Next | src/resources.rs:32-34 | the held symbol becomes the next symbol of the old one |
| Resources.CurrentTurn.Reset | src/resources.rs:36-38 | the held symbol becomes Cross, whatever it was, so a second reset changes nothing |
| Resources.Winner.Default | src/resources.rs:41-42 | the default winner resource holds no winner |
| Resources.Winner.constructor | src/resources.rs:45-47 | the new resource holds the given identity or none |
| Resources.Winner.Clear | src/resources.rs:53-55 | the held identity becomes None, so a second clear changes nothing |
| Utils.LocalPlayerTurnMeaning | src/utils.rs:8-20 | the local user may pick exactly when some player has this process's identity (the client transport's id, or the server identity without one) and the turn's symbol |
| Utils.DefaultLocalIdIsServer | src/utils.rs:13-15 | without a client transport the local identity is the server identity |
| Utils.NoPlayersNoLocalTurn | src/utils.rs:17-19 | with no player entities the local user may never pick |
| App.BoardSize | src/main.rs:17-18 | the grid is 3 by 3, so there are 9 cells and 4 grid lines per axis |
| App.ReturnToMainMenu | src/main.rs:53-63 | if Escape is among the keys just pressed, MainMenu is requested; otherwise the pending phase is left unchanged |
| Game.PickingSystem | src/game.rs:177-217 | the loop's spawns equal the specification of the as-written step: every request is checked against the same snapshot, and each accepted one spawns the turn's symbol at its index |
| Game.PickSpawnsCount | src/game.rs:184-216 | each cell appears in a batch's spawns exactly as many times as there are accepted requests at its index, and only with the turn's symbol |
| Game.PickSpawnsExact | src/game.rs:184-216 | a batch spawns no more cells than it has requests, and each cell exactly as many times as there are accepted requests at its index. Every spawned cell has the turn's symbol, passed the as-written range guard, was free, and was requested by a holder of the turn. Every accepted request spawns |
| Game.RejectedBatchSpawnsNothing | src/game.rs:186-210 | a batch in which every request is out of range, from a non-holder of the turn, or on a filled cell spawns nothing |
| Game.NineAdmittedAsWritten | src/game.rs:186-189 | the as-written guard accepts index 9 from the turn holder and spawns it, leaving a cell off the board; the corrected check refuses it |
| Game.SameBatchDoublePick | src/game.rs:184-216 | two requests from the turn holder in one batch both spawn. When they name the same cell, the cells hold a duplicate index |
| Game.FirstAccepted | src/game.rs:184-216 | None exactly when no request passes the corrected checks. Otherwise the spawn has the turn's symbol and an index on the board that was free; a holder of the turn requested it, and no earlier request passed |
| Game.AuthorizePicks | src/game.rs:184-216 | the corrected loop, which stops at the first accepted request, returns exactly the decision FirstAccepted specifies |
| Game.AcceptKeepsCellsWellFormed | src/game.rs:201-215 | if the filled cells lie on the board and share no index, they still do after the accepted pick is added |
| Game.BoardOfSnoc | src/game.rs:264-267 | filling one more cell writes its symbol at its index of the board view and changes no other entry |
| Game.BuildBoard | src/game.rs:264-267 | writing every filled cell into an empty nine-entry array gives exactly the board view of the cells |
| Game.LastSymbolAtMeaning | src/game.rs:265-266 | for well-formed cells, the symbol written at an index is s exactly when the cell (s, index) was filled |
| Game.BoardOfMeaning | src/game.rs:264-267 | for well-formed cells, the board holds s at index i exactly when the cell (s, i) was filled |
| Game.OccupantsPersist | src/game.rs:201-215 | adding cells while keeping them well formed never empties or changes a cell already filled |
| Game.FirstWinningLine | src/game.rs:280-292 | the position found is the first winning line from the start position on; None means no line from there wins |
| Game.Evaluate | src/game.rs:280-298 | a win exactly when some line is complete with one symbol, for the symbol of the first such line. A draw exactly when no line wins and every cell is filled. The game goes on exactly when no line wins and some cell is empty |
| Game.ScanWinConditions | src/game.rs:269-298 | the scan over the eight lines in order, with its early return and the full-board test, returns exactly Evaluate's outcome |
| Game.WinBeatsDraw | src/game.rs:280-295 | a board with a complete line is a win even when it is full |
| Game.ScenarioOpenBoard | src/game.rs:264-298 | Cross on cells 0 and 1 with Nought on 4 is neither a win nor a draw |
| Game.ScenarioFullBoard | src/game.rs:294-295 | a full board without a complete line is a draw |
| Game.FrameCorrectedAlternates | src/game.rs:24-32 | while the game goes on, a tick of the corrected schedule keeps the filled cells alternating between the symbols from Cross, keeps at most the last cell waiting for its turn advance, and keeps the turn with the symbol after the last cell once it has been advanced |
| Game.CrossOpeningBoards | src/game.rs:264-298 | Cross on 0, and Cross on 0 and 1, are boards on which the game goes on |
| Game.CrossSecondRequestSpawns | src/game.rs:184-215 | with only Cross's cell on 0 filled and Cross to move, the as-written picking step accepts Cross's request for cell 1 |
| Game.SecondPickBeforeAdvanceAsWritten | src/game.rs:24-32 | under the schedule as written, a second request from Cross in the tick after its first cell is spawned is accepted: Cross holds two cells in a row, the cells no longer alternate, and the turn returns to Cross; the corrected tick refuses that request and passes the turn |
| Discovery.MessagesDistinct | src/network/discovery.rs:46-49 | the request is 20 bytes and the response 17, and neither message starts with the other |
| Discovery.TruncateKeepsPrefixTest | src/network/discovery.rs:79-83 | cutting a datagram to the 1024-byte buffer never changes whether it starts with a message that fits the buffer |
| Discovery.ServerReply | src/network/discovery.rs:78-97 | the responder replies exactly when it received a datagram that starts with the request, and the reply is the response sent to the sender |
| Discovery.ResponderPrefixMatch | src/network/discovery.rs:83-87 | a request with trailing bytes is still answered, and the response itself is not taken for a request |
| Discovery.DiscoverServers.constructor | src/network/discovery.rs:122-126 | the list of found hosts starts empty |
| Discovery.DiscoverServers.AddServer | src/network/discovery.rs:130-137 | the answer is true exactly when the address was not listed. A new address is appended; otherwise the list is unchanged. A list without duplicates stays without them |
| Discovery.RequesterReceive | src/network/discovery.rs:169-185 | a host is reported exactly when a datagram starting with the response came from an address not yet listed. That address is then appended; otherwise nothing changes |
| Discovery.HandleClientMessages | src/network/discovery.rs:164-194 | the tick updates the list and reports a host exactly as RequesterReceive says, and always sends the request to the broadcast address at the discovery port |
| Discovery.RequesterRunReportsEachHostOnce | src/network/discovery.rs:164-194 | over any run the final list is the initial list followed by the hosts reported. No host is reported twice or when already listed, and the list never holds a duplicate |
| Discovery.RepeatedResponseReportedOnce | src/network/discovery.rs:173-177 | a host that answers twice is reported once |
| Discovery.ResponseIsRecognised | src/network/discovery.rs:83-176 | the responder answers a request with the response, and the requester lists and reports a new host that sends it |
| Discovery.RequestIsNotAResponse | src/network/discovery.rs:46-49 | the requester ignores its own request echoed back, because the request does not start with the response |
| Server.PlayersInGame.constructor | src/network/server.rs:49-53 | the resource seats exactly the given players, in order |
| Server.PlayersInGame.AddPlayer | src/network/server.rs:55-57 | the player is appended to the seats |
| Server.PlayersInGame.Clear | src/network/server.rs:130-133 | the seats become empty |
| Server.HotseatSetup | src/network/server.rs:60-65 | hotseat seats two players on the server identity, Cross first and then Nought, with distinct symbols |
| Server.HotseatEveryTurnIsLocal | src/network/server.rs:60-63 | in hotseat the local user may pick whichever symbol has the turn |
| Server.JoiningSeatsDistinct | src/network/server.rs:121-123 | the host and the client that joins it hold different symbols, and between them both symbols |
| Server.ClientJoins | src/network/server.rs:119-127 | a connection to a lobby with the host seated adds a second seat with the other symbol, stops the responder and asks for Playing |
| Server.ClientLeaves | src/network/server.rs:128-135 | a disconnection, whatever came before it in the batch, empties the seats and asks for Disconnected |
| Server.GuardedAgrees | src/network/server.rs:117-137 | on every batch on which the handler as written does not panic, the corrected handler gives the same seats, pending phase and pending responder state |
| Server.ReconnectAfterLeaveAsWritten | src/network/server.rs:119-133 | after a client leaves the one-seat lobby the seats are empty, so a later connection does not find the single host seat the handler as written needs; the corrected handler leaves everything as it was |
| Sessions.Session.constructor | src/main.rs:33-37 | a session starts in MainMenu with an empty board, Cross to move, no winner, no seats, no transports and both discovery roles stopped |
| Sessions.Session.LocalClick | src/game.rs:26 | a click sends at most one pick request; it sends one exactly when it is the local user's turn, and the request carries this process's identity and the clicked index |
| Sessions.Session.Pick | src/game.rs:177-217 | on the host, the spawn decided for a batch is exactly the corrected decision, taken against the cells and the turn as they are, and nothing changes yet |
| Sessions.Session.TurnAdvance | src/game.rs:257-299 | runs only when cells were added. After a win, GameOver is requested and the winner is the first player holding the winning symbol. After a draw, Draw is requested. Otherwise the turn passes to the other symbol |
| Sessions.Session.PlayingFrame | src/game.rs:22-33 | one tick of play takes the cells, the cells waiting for their turn advance and the turn to exactly the corrected tick. With nothing waiting and no accepted request nothing changes; with nothing waiting and an accepted request exactly one free cell is added, with the turn's symbol, and waits; with a cell waiting no cell is added and the turn advance's three outcomes follow |
| Sessions.Session.ServerHandleEvents | src/network/server.rs:109-138 | the seats, the pending phase and the pending responder state become exactly what the corrected handler makes of the connection events, in order |
| Sessions.Session.HandleKeys | src/main.rs:42-45 | outside MainMenu, Escape requests MainMenu; in MainMenu, or without Escape, the pending phase is unchanged |
| Sessions.Session.SetupGame | src/game.rs:49-56 | entering Playing clears the winner and gives the turn to Cross |
| Sessions.Session.StartHotseatGame | src/network/server.rs:60-65 | entering Hotseat seats both symbols locally and asks for Playing |
| Sessions.Session.StartListening | src/network/server.rs:68-107 | entering HostingLobby opens a one-client transport with the protocol id and port, seats the host as Cross, gives Cross the turn and starts the responder |
| Sessions.Session.StartConnection | src/network/client.rs:48-82 | entering WaitingConnection opens the client transport under the given identity and gives Cross the turn |
| Sessions.Session.TearDownNetwork | src/network/mod.rs:39-69 | entering MainMenu drops both transports, empties the seats and stops both discovery roles |
| Sessions.Session.EnterPhase | src/game.rs:22-38 | the phase becomes the new one; leaving Playing removes the board and the cells waiting for their turn advance, the new phase's enter hook runs, and everything the hook does not touch is unchanged |
| Sessions.Session.ApplyDiscoveryStates | src/network/discovery.rs:12-41 | each discovery role takes its pending state when one was requested and keeps its state otherwise |
| Sessions.Session.ApplyTransitions | src/main.rs:33 | the state-transition step of the game phase registered here and of the two discovery roles registered at src/network/discovery.rs:12-13: the pending phase, if any, is entered with its hook, then the pending discovery states are applied; with no pending phase the phase and the board stay |
| Scenarios.HotseatAccepts | src/game.rs:184-215 | in hotseat, a click on a free cell on the board is taken for whichever symbol has the turn |
| Scenarios.HotseatWinnerIsLocal | src/game.rs:285-288 | in hotseat the winner named for either symbol is the server identity |
| Scenarios.BoardAfterC0 | src/game.rs:264-267 | after Cross on 0 the board shows Cross in cell 0 only |
| Scenarios.BoardAfterN3 | src/game.rs:264-267 | then Nought on 3 adds Nought in cell 3 |
| Scenarios.BoardAfterC1 | src/game.rs:264-267 | then Cross on 1 adds Cross in cell 1 |
| Scenarios.BoardAfterN4 | src/game.rs:264-267 | then Nought on 4 adds Nought in cell 4 |
| Scenarios.BoardAfterC2 | src/game.rs:264-267 | then Cross on 2 fills the top row with Cross |
| Scenarios.TopRowFirstMoves | src/game.rs:280-298 | after each of the first two moves of the top-row game the game goes on |
| Scenarios.TopRowNextMoves | src/game.rs:280-298 | after the third and the fourth move the game still goes on |
| Scenarios.TopRowFinish | src/game.rs:280-291 | the fifth move, Cross on 2, is a win for Cross |
| Scenarios.StartHotseat | src/network/server.rs:60-65 | choosing hotseat from the main menu reaches Playing with an empty board, Cross to move and both seats local |
| Scenarios.HotseatClick | src/game.rs:24-32 | in hotseat, the tick of a click on a free cell adds that cell with the turn's symbol, keeps the turn and leaves the cell waiting for its turn advance |
| Scenarios.AdvanceTick | src/game.rs:29 | the tick after a cell was added, on a board where the game goes on, passes the turn and adds nothing |
| Scenarios.HotseatMove | src/game.rs:24-32 | one hotseat move, over two ticks, that completes no line and leaves a cell free fills the clicked cell with the turn's symbol and passes the turn |
| Scenarios.HotseatWinningMove | src/game.rs:24-32 | one hotseat move, over two ticks, that completes a line fills the clicked cell and requests GameOver with the server identity as winner |
| Scenarios.TopRowOpeningMoves | src/game.rs:23-33 | Cross on 0 and then Nought on 3 leave those two cells filled and Cross to move |
| Scenarios.TopRowMiddleMoves | src/game.rs:23-33 | then Cross on 1 and Nought on 4 leave four cells filled and Cross to move |
| Scenarios.HotseatTopRowWin | src/game.rs:280-291 | when Cross completes the top row in hotseat, the game ends in GameOver with the server identity as winner |
| Scenarios.HotseatOccupiedCellRefused | src/game.rs:201-210 | in hotseat, Nought clicking the cell Cross holds leaves the board and the turn as they were, and leaves no cell waiting for a turn advance |
| Scenarios.OccupiedRefused | src/game.rs:201-210 | the corrected picking decision refuses a click on a filled cell |

## Left out

- Rendering, sprites, fonts, colours, hover feedback and every user-interface screen are not modelled. They have no bearing on the game rules.
- Turning a button press into a cell index (src/game.rs:148-172) is left out: it is engine layout. The model works on the index the pick event carries.
- Initialising a symbol's display after replication (src/game.rs:219-254) and client-side replication are left out: they are rendering and transport. The model holds the authoritative cells.
- Sockets, transports, the handshake and timing are left out: they are I/O. A receive is a `RecvResult` parameter and a send is a returned `Datagram`. The client identity, derived from the clock, is a parameter.
- Starting and stopping the discovery sockets (src/network/discovery.rs:69-75, 99-106, 151-161, 196-203) is modelled only as the discovery-role state. Binding, setting non-blocking mode and the first broadcast are I/O. The first broadcast sends the same `DISCOVERY_REQUEST`.
- The panics when the responder's port cannot be bound or a reply cannot be sent (src/network/discovery.rs:71 and 87) are left out: they are I/O failures. Failed receives and failed requester sends are logged and ignored, so they need no model beyond `Failed`.
- The received bytes are decoded lossily as UTF-8 before the prefix test, and that decoding is not modelled. Both messages are ASCII, so the decoded text starts with a message exactly when the raw bytes do. The model tests the bytes.
- The `_servers` accessor of the found-hosts list is not a separate member: the list is the `servers` field.
- The engine's scheduler is not modelled in general. The order of the play steps within a tick and the tick boundary are written out in `Session.PlayingFrame`, and the "component added" run condition is the `justAdded` field. Which other systems run in a tick, and in what order, is left to the caller, and re-entering a phase one is already in is not modelled.
- Sessions.Session.PlayingFrame: it follows the corrected tick (`Game.FrameCorrected`), which considers pick requests only while no accepted cell waits for its turn advance; the tick as written is `Game.FrameAsWritten`; see Findings. On a client, cells arrive by replication, which is not modelled, so a client tick never adds a cell.
- Sessions.Session.ServerHandleEvents: it follows the corrected handler (`Server.AfterServerEventsGuarded`), which does not seat a connection that finds no single host seat. The handler as written panics there; its model `Server.AfterServerEvents` has that case as a precondition (`ConnectsNeedOneSeat`); see Findings.
- Sessions.Session.ApplyTransitions: it applies the pending game phase, with its enter hook, before the pending discovery-role states. The engine does not order the transitions of separate state types against each other, so this order is assumed; under the other order an effect that depends on both, such as an enter hook's discovery request, can take effect one tick later.
- The players-in-game resource, when absent, is modelled as an empty seat list. The game never distinguishes the two cases, and the player entities are taken to be exactly the seats.
- Query iteration order is taken to be the order in which entities were spawned. The engine does not promise that order. It matters only for which holder of a winning symbol is named winner.
- ClientId: the 64-bit width is not modelled. Identities are natural numbers, and no arithmetic is done on them.
- The client-side step that enters Playing once the replicated players arrive (src/network/client.rs:84-86) is left out: it depends on replication. A client session reaches Playing by setting the pending phase.
- The menu buttons that request Hotseat, HostingLobby or Connect (src/ui/main.rs:122-130) and the typed server address (src/ui/client.rs:146-194) are user interface. A scenario requests a phase by setting the pending phase.
- The discovery requester's run state is requested only by the Connect screen, which is user interface: entering it asks for Running (src/ui/client.rs:143), the Connect button asks for Stopped (src/ui/client.rs:231), and confirming the typed address with Enter (src/ui/client.rs:190-191) does not stop it. No `Session` method requests Running for the requester; leaving for MainMenu stops it.
- The floating-point layout constants (src/main.rs:19-26) are left out: they are rendering.
- Sessions.Session.Pick: it uses the corrected validation (`Game.AuthorizePicks`); see Findings. The as-written step is `Game.PickingSystem`.

## Findings

| source | as written | input that shows it | evidently intended | confidence | as-written member | corrected member |
|---|---|---|---|---|---|---|
| src/game.rs:186 | the range guard refuses only an index greater than 9, so index 9 passes. The board has indices 0 to 8, and building it indexes the array with every filled cell's index (src/game.rs:266) | a pick of index 9 from the holder of the turn, when no cell 9 exists | refuse every index from 9 up, so that every filled cell lies on the board | high, not executed | Game.NineAdmittedAsWritten | Game.AuthorizePicks |
| src/game.rs:184-216 | every request of a batch is checked against the same cells and the same turn, because spawns are deferred, so every accepted request spawns | two picks from the holder of the turn in one batch, of free cells a and b | at most one cell per turn, and never two cells at one index | medium, not executed | Game.SameBatchDoublePick | Game.FirstAccepted |
| src/game.rs:24-32 | the play steps run chained without applying deferred commands, so an accepted cell is spawned at the end of its tick and the turn passes only in the next tick; in that next tick the picking step still runs under the old turn | Cross's cell on 0 spawned, then a request from Cross for cell 1 in the following tick | no second cell for a symbol before the turn has passed, so the symbols alternate | medium, not executed | Game.SecondPickBeforeAdvanceAsWritten | Game.FrameCorrectedAlternates |
| src/network/server.rs:119-133 | a disconnection despawns every seat, including the host's, while the host keeps listening, and a later connection looks up the single host seat | a client leaves the hosted game, then another client connects | a connection that finds no host seat is not seated, instead of the host panicking | medium, not executed | Server.ReconnectAfterLeaveAsWritten | Server.GuardedAgrees |
