/** The run condition that lets the local user pick a cell. */
module Utils {
  import opened Wrappers
  import opened Symbols
  import opened Players

  /** The identity this process plays as: the client transport's id, or the host's sentinel
      identity when there is no client transport (host or hotseat). */
  function LocalClientId(clientTransport: Option<ClientId>): ClientId
  {
    match clientTransport
    case Some(id) => id
    case None => SERVER_ID
  }

  /** Whether some player has this process's identity and the symbol of the current turn. */
  predicate LocalPlayerTurn(turn: Symbol, clientTransport: Option<ClientId>, players: seq<Player>)
  {
    HoldsSymbol(players, LocalClientId(clientTransport), turn)
  }

  lemma LocalPlayerTurnMeaning(turn: Symbol, clientTransport: Option<ClientId>, players: seq<Player>)
    ensures LocalPlayerTurn(turn, clientTransport, players) <==>
            exists i :: 0 <= i < |players| && players[i].clientId == LocalClientId(clientTransport)
                                          && players[i].symbol == turn
  {
    if LocalPlayerTurn(turn, clientTransport, players) {
      var i :| 0 <= i < |players| && players[i] == Player(LocalClientId(clientTransport), turn);
    }
  }

  lemma DefaultLocalIdIsServer()
    ensures LocalClientId(None) == SERVER_ID
  {
  }

  lemma NoPlayersNoLocalTurn(turn: Symbol, clientTransport: Option<ClientId>)
    ensures !LocalPlayerTurn(turn, clientTransport, [])
  {
  }
}
