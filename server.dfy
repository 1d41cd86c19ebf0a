/** ChainServer: the server object of server.cpp, its fields updated in
    place. Each loop of the source contributes one method for one iteration
    (ListenStep, MaintainTick) or one pass (RelayLoop's drain); each method
    is proved against the matching function of RelayEngine. The socket is
    the append-only log `sent`; the resolver's answer is a parameter. */
module ChainServer {
  import opened Peers
  import opened Messages
  import opened ConnectionRegistry
  import opened Routing
  import opened RelayEngine
  import opened SeqFacts

  class Server {
    const index: int
    const leftIndex: int
    const rightIndex: int
    const topology: Topology

    var connectedClients: seq<RemoteConnection>
    var leftRoster: seq<string>
    var rightRoster: seq<string>
    var leftConnection: Option<RemoteConnection>
    var rightConnection: Option<RemoteConnection>
    var messageQueue: seq<Message>
    var sent: seq<Datagram>

    /** The registry part of the server's state, as a value. */
    function Snapshot(): Registry
      reads this`connectedClients, this`leftRoster, this`rightRoster, this`leftConnection, this`rightConnection
    {
      Registry(connectedClients, leftRoster, rightRoster, leftConnection, rightConnection)
    }

    /** The whole mutable state, as a value. */
    function State(): ServerState
      reads this
    {
      ServerState(Snapshot(), messageQueue, sent)
    }

    /** A server at chain position `serverIndex`: its neighbours are at the
        positions on either side, nothing is known, nothing is connected. */
    constructor (serverIndex: int, chain: Topology)
      ensures index == serverIndex && leftIndex == serverIndex - 1 && rightIndex == serverIndex + 1
      ensures topology == chain
      ensures State() == ServerState(ConnectionRegistry.Empty, [], [])
    {
      index := serverIndex;
      leftIndex := serverIndex - 1;
      rightIndex := serverIndex + 1;
      topology := chain;
      connectedClients := [];
      leftRoster := [];
      rightRoster := [];
      leftConnection := None;
      rightConnection := None;
      messageQueue := [];
      sent := [];
    }

    // ------------------------------------------------------ registry mutators

    method AddClientConnection(id: string, ep: Endpoint)
      modifies this`connectedClients
      ensures connectedClients == AddClient(old(connectedClients), id, ep)
    {
      connectedClients := connectedClients + [RemoteConnection(id, ep)];
    }

    /** The source's scan breaks after its first iteration whether or not the
        entry matched, so it is this test of the head of the list. */
    method RemoveClientConnection(id: string)
      modifies this`connectedClients
      ensures connectedClients == RemoveClient(old(connectedClients), id)
    {
      if |connectedClients| > 0 && connectedClients[0].identifier == id {
        connectedClients := connectedClients[1..];
      }
    }

    method ReceiveClientsFromAdjacentServers(m: Message)
      requires IsSync(m.kind)
      modifies this`leftRoster, this`rightRoster
      ensures Snapshot() == ReceiveSync(old(Snapshot()), m)
    {
      match m.kind {
        case SyncLeft => rightRoster := m.syncPayload;
        case SyncRight => leftRoster := m.syncPayload;
      }
    }

    method AddToMessageQueue(m: Message)
      modifies this`messageQueue
      ensures messageQueue == old(messageQueue) + [m]
    {
      messageQueue := messageQueue + [m];
    }

    // ---------------------------------------------------------------- ingest

    /** One iteration of listenLoop, after receive and decode: `from` is the
        address the datagram came from. */
    method ListenStep(m: Message, from: Endpoint)
      modifies this`connectedClients, this`leftRoster, this`rightRoster, this`messageQueue
      ensures State() == Ingest(old(State()), m, from)
    {
      match m.kind {
        case Connection => AddClientConnection(m.source, from);
        case Disconnect => RemoveClientConnection(m.source);
        case Chat =>
        case PrivateMessage =>
        case SyncRight =>
          ReceiveClientsFromAdjacentServers(m);
          return;
        case SyncLeft =>
          ReceiveClientsFromAdjacentServers(m);
          return;
      }
      AddToMessageQueue(m);
    }

    // ----------------------------------------------------------------- relay

    /** relayUDP's broadcast loop: one datagram to every connected client
        whose name differs from the sender's, in list order. */
    method BroadcastToClients(m: Message)
      modifies this`sent
      ensures sent == old(sent) + Deliveries(BroadcastRecipients(connectedClients, m.source), m)
    {
      var i := 0;
      while i < |connectedClients|
        invariant 0 <= i <= |connectedClients|
        invariant sent == old(sent) + Deliveries(BroadcastRecipients(connectedClients[..i], m.source), m)
      {
        var target := connectedClients[i];
        BroadcastStep(connectedClients, i, m);
        if target.identifier != m.source {
          sent := sent + [Datagram(m, target.endpoint)];
        }
        i := i + 1;
      }
      assert connectedClients[..i] == connectedClients;
    }

    /** relayUDP's scan of the local clients: the position of the first one
        named `id`. */
    method FindLocalClient(id: string) returns (found: Option<nat>)
      ensures found == FirstIndexOf(connectedClients, id)
    {
      var i := 0;
      while i < |connectedClients|
        invariant 0 <= i <= |connectedClients|
        invariant forall j :: 0 <= j < i ==> connectedClients[j].identifier != id
      {
        if connectedClients[i].identifier == id {
          return Some(i);
        }
        i := i + 1;
      }
      return None;
    }

    /** relayUDP: broadcast to every client but the sender; otherwise the
        first local client of that name, then (left connection present) the
        left roster, then (left connection present, as in the source) the
        right roster, sending once at the first match; else dropped. */
    method RelayUDP(m: Message) returns (d: Decision)
      modifies this`sent
      ensures d == Route(Snapshot(), m)
      ensures sent == old(sent) + SendsOf(d, m)
    {
      if m.destination == BroadcastId {
        BroadcastToClients(m);
        return Broadcast(BroadcastRecipients(connectedClients, m.source));
      }

      var local := FindLocalClient(m.destination);
      if local.Some? {
        sent := sent + [Datagram(m, connectedClients[local.value].endpoint)];
        return Local(connectedClients[local.value]);
      }

      if leftConnection.Some? {
        var listed := RosterContains(leftRoster, m.destination);
        if listed {
          sent := sent + [Datagram(m, leftConnection.value.endpoint)];
          return ViaLeft(leftConnection.value.endpoint);
        }
      }

      if leftConnection.Some? {
        var listed := RosterContains(rightRoster, m.destination);
        if listed {
          if rightConnection.None? {
            return NullRightConnection;
          }
          sent := sent + [Datagram(m, rightConnection.value.endpoint)];
          return ViaRight(rightConnection.value.endpoint);
        }
      }

      return Dropped;
    }

    /** relayUDP's scan of a neighbour roster for `id`. */
    static method RosterContains(roster: seq<string>, id: string) returns (listed: bool)
      ensures listed <==> id in roster
    {
      var k := 0;
      while k < |roster|
        invariant 0 <= k <= |roster|
        invariant id !in roster[..k]
      {
        if roster[k] == id {
          return true;
        }
        assert roster[..k + 1] == roster[..k] + [roster[k]];
        k := k + 1;
      }
      assert roster[..k] == roster;
      return false;
    }

    /** relayBluetooth: an empty placeholder in the source. */
    method RelayBluetooth(m: Message)
    {
    }

    /** The relayUDP call of relayLoop's inner loop, on message `j` of the
        queue `q` the drain started from: its decision is entry `j` of
        `ds`, the decisions for `q`. */
    method RelayFront(ghost r: Registry, ghost q: seq<Message>, ghost ds: seq<Decision>, ghost j: nat) returns (d: Decision)
      requires Snapshot() == r && ds == Routes(r, q)
      requires j < |q| && messageQueue == q[j..]
      modifies this`sent
      ensures d == ds[j]
      ensures sent == old(sent) + SendsOf(ds[j], q[j])
    {
      var m := messageQueue[0];
      assert m == q[j];
      RouteAt(r, q, j);
      d := RelayUDP(m);
    }

    /** relayLoop's inner loop: relay the front message over both transports,
        then pop it, until the queue is empty. A message that reaches the null
        right-connection dereference ends the drain, as the crash would. */
    method RelayLoop() returns (outcomes: seq<Decision>)
      modifies this`messageQueue, this`sent
      ensures State() == Drain(old(State())).state
      ensures outcomes == Drain(old(State())).outcomes
    {
      ghost var s0 := State();
      ghost var j;
      outcomes, j := RelayQueue(Snapshot(), messageQueue, Routes(Snapshot(), messageQueue), sent);
      DrainFinish(s0, Routes(s0.registry, s0.queue), j, outcomes, sent);
    }

    /** The loop of RelayLoop, against the decisions `ds` for the queue `q` it
        starts from: it stops after `j` pops, either at the end of the queue
        or with the faulting message `j` still at the front. */
    method RelayQueue(ghost r: Registry, ghost q: seq<Message>, ghost ds: seq<Decision>, ghost sent0: seq<Datagram>)
      returns (outcomes: seq<Decision>, ghost j: nat)
      requires Snapshot() == r && messageQueue == q && sent == sent0 && ds == Routes(r, q)
      modifies this`messageQueue, this`sent
      ensures Snapshot() == r
      ensures j <= FirstFault(ds) && messageQueue == q[j..]
      ensures sent == sent0 + Emitted(ds, q, j)
      ensures j < |ds| ==> ds[j].NullRightConnection? && outcomes == ds[..j + 1]
      ensures j == |ds| ==> outcomes == ds[..j]
    {
      j := 0;
      outcomes := [];
      while messageQueue != []
        invariant j <= |q| && messageQueue == q[j..]
        invariant outcomes == ds[..j]
        invariant j <= FirstFault(ds)
        invariant sent == sent0 + Emitted(ds, q, j)
        decreases |messageQueue|
      {
        DrainStep(ds, q, j, sent0, sent);
        ghost var before := sent;
        var d := RelayFront(r, q, ds, j);
        PrefixSnoc(ds, j);
        if d.NullRightConnection? {
          FaultSendsNothing(d, q[j]);
          AppendEmpty(before);
          outcomes := outcomes + [d];
          return;
        }
        RelayBluetooth(messageQueue[0]);
        messageQueue := messageQueue[1..];
        FirstFaultPast(ds, j);
        outcomes := outcomes + [d];
        j := j + 1;
      }
    }

    // ------------------------------------------------------- neighbour sync

    /** One iteration of maintainToAdjacentServers, without the sleep:
        `leftResolved`/`rightResolved` are what resolving that neighbour's
        address would give this time (None: the resolver threw). */
    method MaintainTick(leftResolved: Option<Endpoint>, rightResolved: Option<Endpoint>)
      modifies this`leftConnection, this`rightConnection, this`sent
      ensures State() == Tick(old(State()), topology, index, leftIndex, rightIndex, Resolution(leftResolved, rightResolved))
    {
      ghost var s0 := State();
      ghost var left := SyncSide(topology.leftIndexIsValid(leftIndex), leftConnection, leftResolved, topology.serverName(leftIndex),
                                 SyncMessage(connectedClients, topology.serverName(index), topology.serverName(leftIndex), SyncLeft));
      ghost var right := SyncSide(topology.rightIndexIsValid(rightIndex), rightConnection, rightResolved, topology.serverName(rightIndex),
                                  SyncMessage(connectedClients, topology.serverName(index), topology.serverName(rightIndex), SyncRight));
      if topology.leftIndexIsValid(leftIndex) {
        if leftConnection.None? {
          match leftResolved {
            case Some(ep) => leftConnection := Some(RemoteConnection(topology.serverName(leftIndex), ep));
            case None => leftConnection := None;
          }
        } else {
          var sync := SyncMessage(connectedClients, topology.serverName(index), topology.serverName(leftIndex), SyncLeft);
          sent := sent + [Datagram(sync, leftConnection.value.endpoint)];
        }
      }
      assert leftConnection == left.connection && sent == s0.sent + left.sends;

      if topology.rightIndexIsValid(rightIndex) {
        if rightConnection.None? {
          match rightResolved {
            case Some(ep) => rightConnection := Some(RemoteConnection(topology.serverName(rightIndex), ep));
            case None => rightConnection := None;
          }
        } else {
          var sync := SyncMessage(connectedClients, topology.serverName(index), topology.serverName(rightIndex), SyncRight);
          sent := sent + [Datagram(sync, rightConnection.value.endpoint)];
        }
      }
      assert rightConnection == right.connection && sent == s0.sent + left.sends + right.sends;
    }
  }
}
