/** The session context: the phase machine and the state it owns, with one method per step of
    the application tick that touches it (picking, turn advance, connection handling, the
    return-to-menu key) and the enter hooks that build and tear down a session. */
module Sessions {
  import opened Wrappers
  import opened Symbols
  import opened Players
  import opened States
  import opened App
  import opened Resources
  import Game
  import opened Discovery
  import opened Server
  import opened Utils

  /** The host's transport while it listens: how many clients it accepts, the handshake
      protocol identifier and the port. */
  datatype ServerTransport = ServerTransport(maxClients: nat, protocolId: nat, port: nat)

  class Session {
    var phase: GameState
    /** A phase change requested this tick, applied by ApplyTransitions. */
    var nextPhase: Option<GameState>
    /** The filled cells of the current board, in the order they were accepted. */
    var cells: seq<SymbolBundle>
    /** The cells whose spawn was applied at the end of the previous tick: what the turn
        advance's run condition sees as added. */
    var justAdded: seq<SymbolBundle>
    var turn: CurrentTurn
    var winner: Winner
    var playersInGame: PlayersInGame
    var discoveryServer: DiscoveryState
    var nextDiscoveryServer: Option<DiscoveryState>
    var discoveryClient: DiscoveryState
    var nextDiscoveryClient: Option<DiscoveryState>
    /** The host transport, when this process listens. */
    var server: Option<ServerTransport>
    /** The client transport's identity, when this process is a client. */
    var client: Option<ClientId>

    /** The filled cells lie on the board and no two share an index. */
    predicate Valid()
      reads this
    {
      Game.CellsWellFormed(cells)
    }

    constructor ()
      ensures Valid()
      ensures phase == MainMenu && nextPhase == None && cells == [] && justAdded == []
      ensures turn.symbol == Cross && winner.clientId == None && playersInGame.players == []
      ensures discoveryServer == Stopped && discoveryClient == Stopped
      ensures nextDiscoveryServer == None && nextDiscoveryClient == None
      ensures server == None && client == None
      ensures fresh(turn) && fresh(winner) && fresh(playersInGame)
    {
      phase := DEFAULT_STATE;
      nextPhase := None;
      cells := [];
      justAdded := [];
      turn := new CurrentTurn.Default();
      winner := new Winner.Default();
      playersInGame := new PlayersInGame([]);
      discoveryServer := DEFAULT_DISCOVERY_STATE;
      nextDiscoveryServer := None;
      discoveryClient := DEFAULT_DISCOVERY_STATE;
      nextDiscoveryClient := None;
      server := None;
      client := None;
    }

    /** Whether the local user may pick a cell now. */
    predicate LocalTurn()
      reads this, turn, playersInGame
    {
      LocalPlayerTurn(turn.symbol, client, playersInGame.players)
    }

    /** The local user pressing the button of cell `index`: the pick request is sent, under
        this process's identity, only when it is the local user's turn. */
    method LocalClick(index: nat) returns (events: seq<Game.FromClient>)
      ensures |events| <= 1
      ensures events != [] <==> LocalTurn()
      ensures events != [] ==> events[0] == Game.FromClient(LocalClientId(client), index)
    {
      events := [];
      if LocalPlayerTurn(turn.symbol, client, playersInGame.players) {
        events := [Game.FromClient(LocalClientId(client), index)];
      }
    }

    /** The picking step, on the host only: validates a batch of pick requests against the
        cells and the turn as they are, and decides on at most one cell to spawn. */
    method Pick(events: seq<Game.FromClient>) returns (spawn: seq<SymbolBundle>)
      requires phase == Playing && client.None?
      ensures spawn == Game.Spawned(Game.FirstAccepted(events, cells, playersInGame.players, turn.symbol))
    {
      var decision := Game.AuthorizePicks(events, cells, playersInGame.players, turn.symbol);
      spawn := Game.Spawned(decision);
    }

    /** The turn advance, run only in a tick that sees added cells: a complete line ends the
        game with the first player holding its symbol as winner; otherwise a full board is a
        draw; otherwise the turn passes. */
    method TurnAdvance()
      requires Valid() && phase == Playing && justAdded != []
      modifies this`nextPhase, this`winner, turn
      ensures winner == old(winner) || fresh(winner)
      ensures match Game.Evaluate(Game.BoardOf(cells))
              case Win(s) =>
                nextPhase == Some(GameOver) && winner.clientId == FirstHolder(playersInGame.players, s)
                && turn.symbol == old(turn.symbol)
              case Draw =>
                nextPhase == Some(States.Draw) && winner == old(winner) && turn.symbol == old(turn.symbol)
              case Continue =>
                nextPhase == old(nextPhase) && winner == old(winner) && turn.symbol == old(turn.symbol).Next()
    {
      var board := Game.BuildBoard(cells);
      var outcome := Game.ScanWinConditions(board);
      match outcome {
        case Win(s) =>
          nextPhase := Some(GameOver);
          winner := new Winner(FirstHolder(playersInGame.players, s));
        case Draw =>
          nextPhase := Some(States.Draw);
        case Continue =>
          turn.Next();
      }
    }

    /** One tick of play: the picking step (host only, and only while no accepted cell waits
        for its turn advance) decides against the cells and the turn the tick starts with; the
        turn advance runs when the previous tick added a cell; the decided spawn is applied at
        the end of the tick. */
    method PlayingFrame(events: seq<Game.FromClient>)
      requires Valid() && phase == Playing
      modifies this`cells, this`justAdded, this`nextPhase, this`winner, turn
      ensures Valid()
      ensures winner == old(winner) || fresh(winner)
      ensures Game.Frame(cells, justAdded, turn.symbol)
              == Game.FrameCorrected(Game.Frame(old(cells), old(justAdded), old(turn.symbol)),
                                     if client.None? then events else [], playersInGame.players)
      ensures old(justAdded) == [] ==> nextPhase == old(nextPhase) && winner == old(winner)
      ensures old(justAdded) == [] && (client.Some? || Game.FirstAccepted(events, old(cells), playersInGame.players, old(turn.symbol)).None?)
              ==> cells == old(cells) && justAdded == [] && turn.symbol == old(turn.symbol)
      ensures old(justAdded) == [] && client.None? && Game.FirstAccepted(events, old(cells), playersInGame.players, old(turn.symbol)).Some?
              ==> exists b :: cells == old(cells) + [b] && justAdded == [b] && b.symbol == old(turn.symbol)
                              && turn.symbol == old(turn.symbol) && !Game.IsOccupied(old(cells), b.cellIndex)
      ensures old(justAdded) != [] ==>
                cells == old(cells) && justAdded == [] &&
                match Game.Evaluate(Game.BoardOf(old(cells)))
                case Win(s) =>
                  nextPhase == Some(GameOver) && winner.clientId == FirstHolder(playersInGame.players, s)
                  && turn.symbol == old(turn.symbol)
                case Draw =>
                  nextPhase == Some(States.Draw) && winner == old(winner) && turn.symbol == old(turn.symbol)
                case Continue =>
                  nextPhase == old(nextPhase) && winner == old(winner) && turn.symbol == old(turn.symbol).Next()
    {
      var spawn: seq<SymbolBundle> := [];
      if client.None? && justAdded == [] {
        spawn := Pick(events);
        Game.AcceptKeepsCellsWellFormed(events, cells, playersInGame.players, turn.symbol);
      }
      if justAdded != [] {
        TurnAdvance();
      }
      cells, justAdded := cells + spawn, spawn;
    }

    /** Handles the connection facts of one tick on the host, in order; a connection that finds
        no single host seat is not seated. */
    method ServerHandleEvents(events: seq<ServerEvent>)
      requires server.Some?
      modifies this`nextPhase, this`nextDiscoveryServer, playersInGame
      ensures Seating(playersInGame.players, nextPhase, nextDiscoveryServer)
              == AfterServerEventsGuarded(Seating(old(playersInGame.players), old(nextPhase), old(nextDiscoveryServer)),
                                          old(playersInGame.players), events)
    {
      var snapshot := playersInGame.players;
      ghost var before := Seating(snapshot, nextPhase, nextDiscoveryServer);
      for k := 0 to |events|
        invariant Seating(playersInGame.players, nextPhase, nextDiscoveryServer)
                  == AfterServerEventsGuarded(before, snapshot, events[..k])
      {
        assert events[..k + 1][..k] == events[..k];
        match events[k] {
          case ClientConnected(c) =>
            if |snapshot| == 1 {
              playersInGame.AddPlayer(JoiningSeat(snapshot[0], c));
              nextDiscoveryServer := Some(Stopped);
              nextPhase := Some(Playing);
            }
          case ClientDisconnected(_) =>
            playersInGame.Clear();
            nextPhase := Some(Disconnected);
        }
      }
      assert events[..|events|] == events;
    }

    /** The return-to-menu check, scheduled only outside MainMenu. */
    method HandleKeys(justPressed: seq<KeyCode>)
      modifies this`nextPhase
      ensures phase == MainMenu ==> nextPhase == old(nextPhase)
      ensures phase != MainMenu ==>
                nextPhase == if Escape in justPressed then Some(MainMenu) else old(nextPhase)
    {
      if phase != MainMenu {
        nextPhase := ReturnToMainMenu(justPressed, nextPhase);
      }
    }

    /** Entering Playing: no winner yet, and Cross moves first. */
    method SetupGame()
      modifies turn, winner
      ensures turn.symbol == Cross && winner.clientId == None
    {
      winner.Clear();
      turn.Reset();
    }

    /** Entering Hotseat: both seats local, then on to Playing. */
    method StartHotseatGame()
      modifies this`playersInGame, this`nextPhase
      ensures playersInGame.players == HotseatSeats() && nextPhase == Some(Playing)
      ensures fresh(playersInGame)
    {
      playersInGame := new PlayersInGame(HotseatSeats());
      nextPhase := Some(Playing);
    }

    /** Entering HostingLobby: listen for one client, seat the host as Cross with the turn,
        and start the discovery responder. */
    method StartListening()
      modifies this`server, this`playersInGame, this`turn, this`nextDiscoveryServer
      ensures server == Some(ServerTransport(MAX_CLIENTS, PROTOCOL_ID, PORT))
      ensures playersInGame.players == [HostSeat()] && turn.symbol == Cross
      ensures nextDiscoveryServer == Some(Running)
      ensures fresh(playersInGame) && fresh(turn)
    {
      server := Some(ServerTransport(MAX_CLIENTS, PROTOCOL_ID, PORT));
      playersInGame := new PlayersInGame([HostSeat()]);
      turn := new CurrentTurn(Cross);
      nextDiscoveryServer := Some(Running);
    }

    /** Entering WaitingConnection: open the client transport under the given identity and
        give the turn to Cross. */
    method StartConnection(clientId: ClientId)
      modifies this`client, this`turn
      ensures client == Some(clientId) && turn.symbol == Cross
      ensures fresh(turn)
    {
      client := Some(clientId);
      turn := new CurrentTurn(Cross);
    }

    /** Entering MainMenu: drop both transports, unseat everyone, stop both discovery roles. */
    method TearDownNetwork()
      modifies this`server, this`client, this`nextDiscoveryServer, this`nextDiscoveryClient, playersInGame
      ensures server == None && client == None && playersInGame.players == []
      ensures nextDiscoveryServer == Some(Stopped) && nextDiscoveryClient == Some(Stopped)
    {
      server := None;
      client := None;
      playersInGame.Clear();
      nextDiscoveryClient := Some(Stopped);
      nextDiscoveryServer := Some(Stopped);
    }

    /** Moves to phase `s`: leaving Playing removes the board, and the enter hook of `s` runs. */
    method EnterPhase(s: GameState, clientId: ClientId)
      requires Valid()
      modifies this, turn, winner, playersInGame
      ensures Valid() && phase == s
      ensures turn == old(turn) || fresh(turn)
      ensures winner == old(winner) || fresh(winner)
      ensures playersInGame == old(playersInGame) || fresh(playersInGame)
      ensures cells == if old(phase) == Playing then [] else old(cells)
      ensures justAdded == if old(phase) == Playing then [] else old(justAdded)
      ensures s == Playing ==> turn.symbol == Cross && winner.clientId == None
      ensures s == MainMenu ==> server == None && client == None && playersInGame.players == []
                                && nextDiscoveryServer == Some(Stopped) && nextDiscoveryClient == Some(Stopped)
      ensures s == Hotseat ==> playersInGame.players == HotseatSeats()
      ensures s == HostingLobby ==> server == Some(ServerTransport(MAX_CLIENTS, PROTOCOL_ID, PORT))
                                    && playersInGame.players == [HostSeat()] && turn.symbol == Cross
                                    && nextDiscoveryServer == Some(Running)
      ensures s == WaitingConnection ==> client == Some(clientId) && turn.symbol == Cross
      ensures nextPhase == if s == Hotseat then Some(Playing) else None
      ensures s !in {MainMenu, Hotseat, HostingLobby} ==> playersInGame.players == old(playersInGame.players)
      ensures s !in {MainMenu, HostingLobby} ==> server == old(server) && nextDiscoveryServer == old(nextDiscoveryServer)
      ensures s !in {MainMenu, WaitingConnection} ==> client == old(client)
      ensures s != MainMenu ==> nextDiscoveryClient == old(nextDiscoveryClient)
      ensures s !in {Playing, HostingLobby, WaitingConnection} ==> turn.symbol == old(turn.symbol)
      ensures s != Playing ==> winner.clientId == old(winner.clientId)
      ensures discoveryServer == old(discoveryServer) && discoveryClient == old(discoveryClient)
    {
      nextPhase := None;
      if phase == Playing {
        cells, justAdded := [], [];
      }
      phase := s;
      match s {
        case Playing => SetupGame();
        case MainMenu => TearDownNetwork();
        case Hotseat => StartHotseatGame();
        case HostingLobby => StartListening();
        case WaitingConnection => StartConnection(clientId);
        case _ =>
      }
    }

    /** Applies the pending discovery-role states. */
    method ApplyDiscoveryStates()
      modifies this`discoveryServer, this`nextDiscoveryServer, this`discoveryClient, this`nextDiscoveryClient
      ensures discoveryServer == (if old(nextDiscoveryServer).Some? then old(nextDiscoveryServer).value else old(discoveryServer))
      ensures discoveryClient == (if old(nextDiscoveryClient).Some? then old(nextDiscoveryClient).value else old(discoveryClient))
      ensures nextDiscoveryServer == None && nextDiscoveryClient == None
    {
      if nextDiscoveryServer.Some? {
        discoveryServer := nextDiscoveryServer.value;
      }
      if nextDiscoveryClient.Some? {
        discoveryClient := nextDiscoveryClient.value;
      }
      nextDiscoveryServer, nextDiscoveryClient := None, None;
    }

    /** The state-transition step between ticks: the pending phase first, with its hooks, then
        the pending discovery-role states. `clientId` is the identity a client transport opened
        in this step would get. */
    method ApplyTransitions(clientId: ClientId)
      requires Valid()
      modifies this, turn, winner, playersInGame
      ensures Valid()
      ensures turn == old(turn) || fresh(turn)
      ensures winner == old(winner) || fresh(winner)
      ensures playersInGame == old(playersInGame) || fresh(playersInGame)
      ensures old(nextPhase).None? ==> phase == old(phase) && cells == old(cells) && justAdded == old(justAdded) && nextPhase == None
      ensures old(nextPhase).Some? ==> phase == old(nextPhase).value
      ensures old(nextPhase) == Some(Playing) ==> turn.symbol == Cross && winner.clientId == None
      ensures old(nextPhase) == Some(MainMenu) ==>
                server == None && client == None && playersInGame.players == []
                && discoveryServer == Stopped && discoveryClient == Stopped
      ensures old(nextPhase) == Some(Hotseat) ==> playersInGame.players == HotseatSeats() && nextPhase == Some(Playing)
      ensures old(nextPhase) == Some(HostingLobby) ==>
                server == Some(ServerTransport(MAX_CLIENTS, PROTOCOL_ID, PORT))
                && playersInGame.players == [HostSeat()] && turn.symbol == Cross && discoveryServer == Running
      ensures old(nextPhase).Some? ==> cells == if old(phase) == Playing then [] else old(cells)
      ensures old(nextPhase).Some? ==> justAdded == if old(phase) == Playing then [] else old(justAdded)
      ensures old(nextPhase).Some? ==> nextPhase == if old(nextPhase) == Some(Hotseat) then Some(Playing) else None
      ensures old(nextPhase) == Some(WaitingConnection) ==> client == Some(clientId) && turn.symbol == Cross
      ensures old(nextPhase) !in {Some(MainMenu), Some(Hotseat), Some(HostingLobby)} ==>
                playersInGame.players == old(playersInGame.players)
      ensures old(nextPhase) !in {Some(MainMenu), Some(HostingLobby)} ==> server == old(server)
      ensures old(nextPhase) !in {Some(MainMenu), Some(WaitingConnection)} ==> client == old(client)
      ensures old(nextPhase) !in {Some(Playing), Some(HostingLobby), Some(WaitingConnection)} ==>
                turn.symbol == old(turn.symbol)
      ensures old(nextPhase) != Some(Playing) ==> winner.clientId == old(winner.clientId)
      ensures old(nextPhase) !in {Some(MainMenu), Some(HostingLobby)} ==>
                discoveryServer == if old(nextDiscoveryServer).Some? then old(nextDiscoveryServer).value else old(discoveryServer)
      ensures old(nextPhase) != Some(MainMenu) ==>
                discoveryClient == if old(nextDiscoveryClient).Some? then old(nextDiscoveryClient).value else old(discoveryClient)
      ensures nextDiscoveryServer == None && nextDiscoveryClient == None
    {
      if nextPhase.Some? {
        EnterPhase(nextPhase.value, clientId);
      }
      ApplyDiscoveryStates();
    }
  }
}
