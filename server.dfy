/** Seat management on the host: who plays which symbol, and how connections change it. */
module Server {
  import opened Wrappers
  import opened Symbols
  import opened Players
  import opened States
  import opened Utils
  import opened Discovery

  /** The host accepts at most one remote client. */
  const MAX_CLIENTS: nat := 1

  /** The players the host has seated, in the order they were seated. */
  class PlayersInGame {
    var players: seq<Player>

    /** Seats the given players, in the given order. */
    constructor (players: seq<Player>)
      ensures this.players == players
    {
      this.players := players;
    }

    method AddPlayer(player: Player)
      modifies this
      ensures players == old(players) + [player]
    {
      players := players + [player];
    }

    method Clear()
      modifies this
      ensures players == []
    {
      players := [];
    }
  }

  /** Hotseat: both seats are local, Cross first, then Nought. */
  function HotseatSeats(): seq<Player>
  {
    [ServerPlayer(Cross), ServerPlayer(Nought)]
  }

  /** The host's own seat when it listens for a client. */
  function HostSeat(): Player
  {
    ServerPlayer(Cross)
  }

  /** A client that connects plays the symbol after the host's. */
  function JoiningSeat(host: Player, clientId: ClientId): Player
  {
    Player(clientId, host.symbol.Next())
  }

  /** No two seats hold the same symbol. */
  predicate SeatsDistinct(seats: seq<Player>)
  {
    forall i, j :: 0 <= i < j < |seats| ==> seats[i].symbol != seats[j].symbol
  }

  lemma HotseatSetup()
    ensures |HotseatSeats()| == 2
    ensures HotseatSeats()[0] == Player(SERVER_ID, Cross) && HotseatSeats()[1] == Player(SERVER_ID, Nought)
    ensures SeatsDistinct(HotseatSeats())
  {
  }

  /** In hotseat both seats are this process's, so whichever symbol has the turn, the local
      user may pick. */
  lemma HotseatEveryTurnIsLocal(turn: Symbol)
    ensures LocalPlayerTurn(turn, None, HotseatSeats())
  {
    assert HotseatSeats()[if turn == Cross then 0 else 1] == Player(SERVER_ID, turn);
  }

  /** The host and the client that joins it hold the two different symbols. */
  lemma JoiningSeatsDistinct(host: Player, clientId: ClientId)
    ensures SeatsDistinct([host, JoiningSeat(host, clientId)])
    ensures {host.symbol, JoiningSeat(host, clientId).symbol} == {Cross, Nought}
  {
  }

  /** Connection facts the transport reports to the host. */
  datatype ServerEvent = ClientConnected(clientId: ClientId) | ClientDisconnected(clientId: ClientId)

  /** The part of the host's state that connection facts change: the seats, the pending phase
      and the pending discovery-responder state. */
  datatype Seating = Seating(players: seq<Player>, nextPhase: Option<GameState>, nextDiscovery: Option<DiscoveryState>)

  /** Looking up the host's single seat on a connection only works when exactly one player
      entity exists. */
  predicate ConnectsNeedOneSeat(snapshot: seq<Player>, events: seq<ServerEvent>)
  {
    forall i :: 0 <= i < |events| && events[i].ClientConnected? ==> |snapshot| == 1
  }

  /** The effect of a batch of connection facts, in order. A connection seats the client with
      the symbol after the host's (read from the player entities as they were before the
      batch), stops the discovery responder and asks for Playing; a disconnection unseats
      everyone and asks for Disconnected. */
  function AfterServerEvents(before: Seating, snapshot: seq<Player>, events: seq<ServerEvent>): Seating
    requires ConnectsNeedOneSeat(snapshot, events)
    decreases |events|
  {
    if events == [] then before
    else
      var front := events[..|events| - 1];
      assert ConnectsNeedOneSeat(snapshot, front) by {
        assert forall i :: 0 <= i < |front| ==> front[i] == events[i];
      }
      var h := AfterServerEvents(before, snapshot, front);
      match events[|events| - 1]
      case ClientConnected(c) =>
        Seating(h.players + [JoiningSeat(snapshot[0], c)], Some(Playing), Some(Stopped))
      case ClientDisconnected(_) =>
        Seating([], Some(Disconnected), h.nextDiscovery)
  }

  /** A client joining the host's lobby takes the second seat with the other symbol, and the
      lobby moves to Playing with the responder stopped. */
  lemma ClientJoins(host: Player, clientId: ClientId, next: Option<GameState>, discovery: Option<DiscoveryState>)
    ensures AfterServerEvents(Seating([host], next, discovery), [host], [ClientConnected(clientId)])
            == Seating([host, JoiningSeat(host, clientId)], Some(Playing), Some(Stopped))
    ensures SeatsDistinct([host, JoiningSeat(host, clientId)])
  {
    assert [ClientConnected(clientId)][..0] == [];
  }

  /** A client leaving empties the seats and moves to Disconnected, whatever came before it in
      the batch. */
  lemma ClientLeaves(before: Seating, snapshot: seq<Player>, events: seq<ServerEvent>, clientId: ClientId)
    requires ConnectsNeedOneSeat(snapshot, events)
    ensures ConnectsNeedOneSeat(snapshot, events + [ClientDisconnected(clientId)])
    ensures AfterServerEvents(before, snapshot, events + [ClientDisconnected(clientId)]).players == []
    ensures AfterServerEvents(before, snapshot, events + [ClientDisconnected(clientId)]).nextPhase == Some(Disconnected)
  {
    assert (events + [ClientDisconnected(clientId)])[..|events|] == events;
  }

  /** The corrected handler: a connection that does not find exactly one player entity to
      read the host's seat from is not seated and changes nothing; everything else is as
      written. */
  function AfterServerEventsGuarded(before: Seating, snapshot: seq<Player>, events: seq<ServerEvent>): Seating
    decreases |events|
  {
    if events == [] then before
    else
      var h := AfterServerEventsGuarded(before, snapshot, events[..|events| - 1]);
      match events[|events| - 1]
      case ClientConnected(c) =>
        if |snapshot| == 1 then Seating(h.players + [JoiningSeat(snapshot[0], c)], Some(Playing), Some(Stopped))
        else h
      case ClientDisconnected(_) =>
        Seating([], Some(Disconnected), h.nextDiscovery)
  }

  /** Wherever the handler as written does not panic, the corrected one does the same. */
  lemma {:induction false} GuardedAgrees(before: Seating, snapshot: seq<Player>, events: seq<ServerEvent>)
    requires ConnectsNeedOneSeat(snapshot, events)
    ensures AfterServerEventsGuarded(before, snapshot, events) == AfterServerEvents(before, snapshot, events)
    decreases |events|
  {
    if events != [] {
      var front := events[..|events| - 1];
      assert forall i :: 0 <= i < |front| ==> front[i] == events[i];
      GuardedAgrees(before, snapshot, front);
    }
  }

  /** Handler as written: once a client has left the one-seat lobby, the batch empties the
      seats and the host keeps listening, so a client connecting in a later batch finds no
      player entity and the host's seat lookup fails. The corrected handler leaves the seats
      as they are. */
  lemma ReconnectAfterLeaveAsWritten(host: Player, before: Seating, left: ClientId, joined: ClientId)
    ensures ConnectsNeedOneSeat([host], [ClientDisconnected(left)])
    ensures AfterServerEvents(before, [host], [ClientDisconnected(left)]).players == []
    ensures !ConnectsNeedOneSeat([], [ClientConnected(joined)])
    ensures forall after :: AfterServerEventsGuarded(after, [], [ClientConnected(joined)]) == after
  {
    assert [ClientDisconnected(left)][..0] == [];
    assert [ClientConnected(joined)][0].ClientConnected?;
    forall after: Seating
      ensures AfterServerEventsGuarded(after, [], [ClientConnected(joined)]) == after
    {
      assert [ClientConnected(joined)][..0] == [];
    }
  }
}
