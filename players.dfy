/** Connection identities and the players that hold a symbol. */
module Players {
  import opened Wrappers
  import opened Symbols

  /** The transport's identifier of a connection (a 64-bit id; width is irrelevant here). */
  type ClientId = nat

  /** The reserved identity of the host acting as a local player (zero in the replication library). */
  const SERVER_ID: ClientId := 0

  /** A player entity: a connection identity paired with the symbol it plays. */
  datatype Player = Player(clientId: ClientId, symbol: Symbol)

  /** A player seated on the host itself. */
  function ServerPlayer(symbol: Symbol): Player
  {
    Player(SERVER_ID, symbol)
  }

  /** Whether some player has identity `id` and symbol `s`, scanning the players in order. */
  function HoldsSymbol(players: seq<Player>, id: ClientId, s: Symbol): (r: bool)
    ensures r <==> exists i :: 0 <= i < |players| && players[i] == Player(id, s)
  {
    if players == [] then false
    else players[0] == Player(id, s) || HoldsSymbol(players[1..], id, s)
  }

  /** The identity of the first player, in order, that holds symbol `s`, if any. */
  function FirstHolder(players: seq<Player>, s: Symbol): (r: Option<ClientId>)
    ensures r.None? <==> forall i :: 0 <= i < |players| ==> players[i].symbol != s
    ensures r.Some? ==> exists i :: 0 <= i < |players| && players[i] == Player(r.value, s)
                                    && forall j :: 0 <= j < i ==> players[j].symbol != s
  {
    if players == [] then None
    else if players[0].symbol == s then Some(players[0].clientId)
    else
      var r := FirstHolder(players[1..], s);
      assert forall i :: 1 <= i < |players| ==> players[i] == players[1..][i - 1];
      r
  }
}
