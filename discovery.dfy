/** The best-effort local-network discovery protocol: a responder on the host answers
    broadcast requests, and a requester on the client records each host that answers. */
module Discovery {
  import opened Wrappers

  newtype byte = x: int | 0 <= x < 256

  /** An IP address as its octets. */
  type IpAddr = seq<byte>

  datatype SocketAddr = SocketAddr(ip: IpAddr, port: nat)

  /** A datagram to send: its payload and its destination. */
  datatype Datagram = Datagram(payload: seq<byte>, to: SocketAddr)

  /** What one non-blocking receive yields: a datagram and its sender, nothing pending yet, or
      another socket error (logged and otherwise ignored). */
  datatype RecvResult = Received(payload: seq<byte>, from: SocketAddr) | WouldBlock | Failed

  /** The run state of each discovery role; both start Stopped. */
  datatype DiscoveryState = Stopped | Running

  const DEFAULT_DISCOVERY_STATE: DiscoveryState := Stopped

  /** The bytes of an ASCII text. */
  function Ascii(text: string): (bytes: seq<byte>)
    requires forall i :: 0 <= i < |text| ==> text[i] as int < 128
    ensures |bytes| == |text|
    ensures forall i :: 0 <= i < |text| ==> bytes[i] as int == text[i] as int
  {
    seq(|text|, i requires 0 <= i < |text| => text[i] as int as byte)
  }

  /** The request a client broadcasts and the response a host sends back. */
  const CLIENT_MESSAGE: seq<byte> := Ascii("TIC_TAC_TOE_DISCOVER")
  const SERVER_MESSAGE: seq<byte> := Ascii("TIC_TAC_TOE_FOUND")

  /** The request is 20 bytes and the response 17, and neither starts with the other: a
      datagram holding one is never taken for the other by a prefix test. */
  lemma MessagesDistinct()
    ensures |CLIENT_MESSAGE| == 20 && |SERVER_MESSAGE| == 17
    ensures !StartsWith(CLIENT_MESSAGE, SERVER_MESSAGE) && !StartsWith(SERVER_MESSAGE, CLIENT_MESSAGE)
  {
    assert CLIENT_MESSAGE[12] != SERVER_MESSAGE[12];
    assert CLIENT_MESSAGE[..17][12] == CLIENT_MESSAGE[12];
  }

  /** The well-known discovery port, distinct from the game's data port. */
  const DISCOVER_PORT: nat := 53005

  /** The receive buffer: a longer datagram is cut to this many bytes. */
  const RECV_BUFFER_SIZE: nat := 1024

  const BROADCAST: IpAddr := [255, 255, 255, 255]

  /** The request a client sends to the subnet broadcast address at the discovery port. */
  const DISCOVERY_REQUEST: Datagram := Datagram(CLIENT_MESSAGE, SocketAddr(BROADCAST, DISCOVER_PORT))

  /** The part of a datagram that fits the receive buffer. */
  function Truncate(payload: seq<byte>): seq<byte>
  {
    if |payload| <= RECV_BUFFER_SIZE then payload else payload[..RECV_BUFFER_SIZE]
  }

  predicate StartsWith(text: seq<byte>, prefix: seq<byte>)
  {
    |prefix| <= |text| && text[..|prefix|] == prefix
  }

  /** Cutting a payload to the buffer never changes whether it starts with a message that fits
      the buffer. */
  lemma TruncateKeepsPrefixTest(payload: seq<byte>, message: seq<byte>)
    requires |message| <= RECV_BUFFER_SIZE
    ensures StartsWith(Truncate(payload), message) <==> StartsWith(payload, message)
  {
    if |payload| > RECV_BUFFER_SIZE {
      assert payload[..RECV_BUFFER_SIZE][..|message|] == payload[..|message|];
    }
  }

  /** The responder's handling of one receive: a payload that starts with the request gets
      exactly the response, sent back to its sender; anything else gets no reply. */
  function ServerReply(received: RecvResult): (reply: Option<Datagram>)
    ensures reply.Some? <==> received.Received? && StartsWith(received.payload, CLIENT_MESSAGE)
    ensures reply.Some? ==> reply.value == Datagram(SERVER_MESSAGE, received.from)
  {
    match received
    case Received(payload, from) =>
      TruncateKeepsPrefixTest(payload, CLIENT_MESSAGE);
      if StartsWith(Truncate(payload), CLIENT_MESSAGE) then Some(Datagram(SERVER_MESSAGE, from)) else None
    case WouldBlock => None
    case Failed => None
  }

  /** The test is a prefix match: a request with trailing bytes is still answered, while the
      response itself, being shorter, is not mistaken for a request. */
  lemma ResponderPrefixMatch(from: SocketAddr, trailer: seq<byte>)
    ensures ServerReply(Received(CLIENT_MESSAGE + trailer, from)) == Some(Datagram(SERVER_MESSAGE, from))
    ensures ServerReply(Received(SERVER_MESSAGE, from)) == None
  {
    assert (CLIENT_MESSAGE + trailer)[..|CLIENT_MESSAGE|] == CLIENT_MESSAGE;
  }

  predicate NoDuplicates(servers: seq<IpAddr>)
  {
    forall i, j :: 0 <= i < j < |servers| ==> servers[i] != servers[j]
  }

  /** The list of hosts found so far, in the order they first answered. */
  class DiscoverServers {
    var servers: seq<IpAddr>

    constructor ()
      ensures servers == []
    {
      servers := [];
    }

    /** Appends `addr` when it is not yet listed; the result says whether it was new. */
    method AddServer(addr: IpAddr) returns (added: bool)
      modifies this
      ensures added <==> addr !in old(servers)
      ensures servers == if added then old(servers) + [addr] else old(servers)
      ensures NoDuplicates(old(servers)) ==> NoDuplicates(servers)
    {
      if addr !in servers {
        servers := servers + [addr];
        added := true;
      } else {
        added := false;
      }
    }
  }

  /** One requester tick on values: the new list of hosts and the host reported as found. */
  datatype RequesterStep = RequesterStep(servers: seq<IpAddr>, found: Option<IpAddr>)

  /** A received response from an address not yet listed lists it and reports it; anything
      else changes nothing and reports nothing. */
  function RequesterReceive(servers: seq<IpAddr>, received: RecvResult): (step: RequesterStep)
    ensures step.found.Some? <==> received.Received? && StartsWith(received.payload, SERVER_MESSAGE)
                                  && received.from.ip !in servers
    ensures step.found.Some? ==> step.found.value == received.from.ip && step.servers == servers + [received.from.ip]
    ensures step.found.None? ==> step.servers == servers
  {
    match received
    case Received(payload, from) =>
      TruncateKeepsPrefixTest(payload, SERVER_MESSAGE);
      if StartsWith(Truncate(payload), SERVER_MESSAGE) && from.ip !in servers then
        RequesterStep(servers + [from.ip], Some(from.ip))
      else RequesterStep(servers, None)
    case WouldBlock => RequesterStep(servers, None)
    case Failed => RequesterStep(servers, None)
  }

  /** The requester's tick: handle at most one received datagram, then always broadcast the
      request again, whatever the receive gave. */
  method HandleClientMessages(discovered: DiscoverServers, received: RecvResult)
    returns (found: Option<IpAddr>, sent: Datagram)
    modifies discovered
    ensures RequesterStep(discovered.servers, found) == RequesterReceive(old(discovered.servers), received)
    ensures sent == DISCOVERY_REQUEST
  {
    found := None;
    match received {
      case Received(payload, from) =>
        TruncateKeepsPrefixTest(payload, SERVER_MESSAGE);
        if StartsWith(Truncate(payload), SERVER_MESSAGE) {
          var added := discovered.AddServer(from.ip);
          if added {
            found := Some(from.ip);
          }
        }
      case WouldBlock =>
      case Failed =>
    }
    sent := DISCOVERY_REQUEST;
  }

  /** Many ticks in a row: the final list and the hosts reported, in order. */
  function RunRequester(servers: seq<IpAddr>, receipts: seq<RecvResult>): (seq<IpAddr>, seq<IpAddr>)
    decreases |receipts|
  {
    if receipts == [] then (servers, [])
    else
      var step := RequesterReceive(servers, receipts[0]);
      var (final, found) := RunRequester(step.servers, receipts[1..]);
      (final, (if step.found.Some? then [step.found.value] else []) + found)
  }

  /** Over any run, the final list is the initial one followed by the hosts reported; no host
      is reported twice or when already listed, so the list never holds a duplicate. */
  lemma {:induction false} RequesterRunReportsEachHostOnce(servers: seq<IpAddr>, receipts: seq<RecvResult>)
    requires NoDuplicates(servers)
    ensures RunRequester(servers, receipts).0 == servers + RunRequester(servers, receipts).1
    ensures NoDuplicates(RunRequester(servers, receipts).0)
    ensures NoDuplicates(RunRequester(servers, receipts).1)
    ensures forall a :: a in RunRequester(servers, receipts).1 ==> a !in servers
    decreases |receipts|
  {
    if receipts != [] {
      var step := RequesterReceive(servers, receipts[0]);
      assert NoDuplicates(step.servers);
      RequesterRunReportsEachHostOnce(step.servers, receipts[1..]);
      var (final, found) := RunRequester(step.servers, receipts[1..]);
      if step.found.Some? {
        var a := step.found.value;
        assert final == servers + ([a] + found);
        var all := [a] + found;
        forall i, j | 0 <= i < j < |all| ensures all[i] != all[j] {
          if i == 0 {
            assert all[j] == found[j - 1] && found[j - 1] in found;
          } else {
            assert all[i] == found[i - 1] && all[j] == found[j - 1];
          }
        }
      }
    }
  }

  /** A host that answers twice is reported once. */
  lemma RepeatedResponseReportedOnce(host: SocketAddr)
    ensures RunRequester([], [Received(SERVER_MESSAGE, host), Received(SERVER_MESSAGE, host)]).1 == [host.ip]
  {
    var r := Received(SERVER_MESSAGE, host);
    assert StartsWith(SERVER_MESSAGE, SERVER_MESSAGE);
    assert RequesterReceive([], r) == RequesterStep([host.ip], Some(host.ip));
    assert RequesterReceive([host.ip], r) == RequesterStep([host.ip], None);
    assert [r][0] == r && [r][1..] == [];
    var empty: seq<IpAddr> := [];
    assert RunRequester([host.ip], []) == ([host.ip], empty);
    assert RunRequester([host.ip], [r]) == ([host.ip], empty + empty);
    assert [r, r][0] == r && [r, r][1..] == [r];
  }

  /** A response from the responder is recognised by the requester: a host that answers a
      request is listed and reported on first sighting. */
  lemma ResponseIsRecognised(servers: seq<IpAddr>, client: SocketAddr, host: SocketAddr)
    requires host.ip !in servers
    ensures ServerReply(Received(CLIENT_MESSAGE, client)) == Some(Datagram(SERVER_MESSAGE, client))
    ensures RequesterReceive(servers, Received(SERVER_MESSAGE, host)) == RequesterStep(servers + [host.ip], Some(host.ip))
  {
    assert StartsWith(CLIENT_MESSAGE, CLIENT_MESSAGE);
    assert StartsWith(SERVER_MESSAGE, SERVER_MESSAGE);
  }

  /** The requester ignores its own request echoed back: the request does not start with the
      response. */
  lemma RequestIsNotAResponse(servers: seq<IpAddr>, from: SocketAddr)
    ensures RequesterReceive(servers, Received(CLIENT_MESSAGE, from)) == RequesterStep(servers, None)
  {
    MessagesDistinct();
  }
}
