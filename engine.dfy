/** RelayEngine: the server's three loop bodies as functions on its state.
    One call of Ingest is one iteration of listenLoop, Drain is one pass of
    relayLoop's inner loop over the queue, Tick is one iteration of
    maintainToAdjacentServers. The class in ChainServer is proved against
    these functions. */
module RelayEngine {
  import opened Peers
  import opened Messages
  import opened ConnectionRegistry
  import opened Routing
  import opened SeqFacts

  /** The registry, the relay queue (front first) and the socket's send log. */
  datatype ServerState = ServerState(registry: Registry, queue: seq<Message>, sent: seq<Datagram>)

  /** The static chain configuration: whether a neighbour position exists,
      and the name of the server at a position. */
  datatype Topology = Topology(
    leftIndexIsValid: int -> bool,
    rightIndexIsValid: int -> bool,
    serverName: int -> string)

  /** What the resolver gives for each side in one tick: an address, or None
      when resolution throws. */
  datatype Resolution = Resolution(left: Option<Endpoint>, right: Option<Endpoint>)

  // ---------------------------------------------------------------- ingest

  /** One iteration of listenLoop on a decoded message received from `from`.
      Connects and disconnects update the client list; syncs replace a roster
      and are not queued; every other message is pushed onto the back of the
      queue once. Nothing is sent. */
  function Ingest(s: ServerState, m: Message, from: Endpoint): (t: ServerState)
    ensures t.sent == s.sent
    ensures t.registry.leftConnection == s.registry.leftConnection
    ensures t.registry.rightConnection == s.registry.rightConnection
    ensures t.queue == if IsSync(m.kind) then s.queue else s.queue + [m]
    ensures m.kind.Connection? ==> t.registry.clients == AddClient(s.registry.clients, m.source, from)
    ensures m.kind.Disconnect? ==> t.registry.clients == RemoveClient(s.registry.clients, m.source)
    ensures !m.kind.Connection? && !m.kind.Disconnect? ==> t.registry.clients == s.registry.clients
    ensures !IsSync(m.kind) ==> t.registry.leftRoster == s.registry.leftRoster && t.registry.rightRoster == s.registry.rightRoster
    ensures m.kind.SyncLeft? ==> t.registry.rightRoster == m.syncPayload && t.registry.leftRoster == s.registry.leftRoster
    ensures m.kind.SyncRight? ==> t.registry.leftRoster == m.syncPayload && t.registry.rightRoster == s.registry.rightRoster
  {
    match m.kind
    case Connection =>
      s.(registry := s.registry.(clients := AddClient(s.registry.clients, m.source, from)), queue := s.queue + [m])
    case Disconnect =>
      s.(registry := s.registry.(clients := RemoveClient(s.registry.clients, m.source)), queue := s.queue + [m])
    case Chat => s.(queue := s.queue + [m])
    case PrivateMessage => s.(queue := s.queue + [m])
    case SyncLeft => s.(registry := ReceiveSync(s.registry, m))
    case SyncRight => s.(registry := ReceiveSync(s.registry, m))
  }

  // ----------------------------------------------------------------- relay

  /** The decision for each message of `q`, in queue order. */
  function Routes(r: Registry, q: seq<Message>): (ds: seq<Decision>)
    ensures |ds| == |q|
    decreases |q|
  {
    if q == [] then [] else [Route(r, q[0])] + Routes(r, q[1..])
  }

  /** The datagrams the first `n` decisions `ds`, taken for the first `n`
      messages of `q`, put on the socket, message by message. */
  function Emitted(ds: seq<Decision>, q: seq<Message>, n: nat): seq<Datagram>
    requires n <= |ds| && n <= |q|
    decreases n
  {
    if n == 0 then [] else Emitted(ds, q, n - 1) + SendsOf(ds[n - 1], q[n - 1])
  }

  /** The datagrams relaying every message of `q`, in queue order, puts on the socket. */
  function SendsAll(r: Registry, q: seq<Message>): seq<Datagram>
  {
    Emitted(Routes(r, q), q, |q|)
  }

  /** No message of `q` reaches the null right-connection dereference. */
  predicate FaultFree(r: Registry, q: seq<Message>)
  {
    forall i :: 0 <= i < |q| ==> !Route(r, q[i]).NullRightConnection?
  }

  /** The position of the first decision that is the null dereference, or
      the length when there is none. */
  function FirstFault(ds: seq<Decision>): (n: nat)
    ensures n <= |ds|
    ensures forall i :: 0 <= i < n ==> !ds[i].NullRightConnection?
    ensures n < |ds| ==> ds[n].NullRightConnection?
    decreases |ds|
  {
    if ds == [] || ds[0].NullRightConnection? then 0 else 1 + FirstFault(ds[1..])
  }

  /** A decision that is not the fault, at the bound, moves the bound on. */
  lemma FirstFaultPast(ds: seq<Decision>, j: nat)
    requires j <= FirstFault(ds) && j < |ds| && !ds[j].NullRightConnection?
    ensures j + 1 <= FirstFault(ds)
  {
  }

  /** The null dereference sends nothing. */
  lemma FaultSendsNothing(d: Decision, m: Message)
    requires d.NullRightConnection?
    ensures SendsOf(d, m) == []
  {
  }

  datatype Drained = Drained(state: ServerState, outcomes: seq<Decision>)

  /** relayLoop's inner loop: relay the front message, pop it, repeat until the
      queue is empty. A message that reaches the null dereference is routed
      but stops the drain, still at the front of the queue. */
  function Drain(s: ServerState): Drained
  {
    var ds := Routes(s.registry, s.queue);
    var n := FirstFault(ds);
    Drained(s.(queue := s.queue[n..], sent := s.sent + Emitted(ds, s.queue, n)),
            ds[..if n < |ds| then n + 1 else n])
  }

  /** Entry i of Routes is the decision for message i. */
  lemma {:induction false} RoutesAt(r: Registry, q: seq<Message>)
    ensures forall i :: 0 <= i < |q| ==> Routes(r, q)[i] == Route(r, q[i])
    decreases |q|
  {
    if q != [] {
      RoutesAt(r, q[1..]);
      forall i | 0 < i < |q| ensures Routes(r, q)[i] == Route(r, q[i]) {
        TailAt(Routes(r, q), i);
        TailAt(q, i);
      }
    }
  }

  /** Entry i of Routes, on its own. */
  lemma RouteAt(r: Registry, q: seq<Message>, i: nat)
    requires i < |q|
    ensures Routes(r, q)[i] == Route(r, q[i])
  {
    RoutesAt(r, q);
  }

  /** The decisions for two consecutive parts of a queue, one part after the other. */
  lemma {:induction false} RoutesAppend(r: Registry, a: seq<Message>, b: seq<Message>)
    ensures Routes(r, a + b) == Routes(r, a) + Routes(r, b)
    decreases |a|
  {
    if a == [] {
      assert a + b == b;
    } else {
      assert (a + b)[0] == a[0];
      assert (a + b)[1..] == a[1..] + b;
      RoutesAppend(r, a[1..], b);
    }
  }

  /** The decisions for a prefix of a queue are a prefix of its decisions. */
  lemma RoutesPrefix(r: Registry, q: seq<Message>, k: nat)
    requires k <= |q|
    ensures Routes(r, q[..k]) == Routes(r, q)[..k]
  {
    SplitAt(q, k);
    RoutesAppend(r, q[..k], q[k..]);
  }

  /** What a drain leaves queued: a suffix of the queue, empty exactly when
      no message faults, and otherwise starting with the faulting message.
      The registry is untouched. */
  lemma DrainQueue(s: ServerState)
    ensures var d := Drain(s);
      d.state.registry == s.registry
      && |d.state.queue| <= |s.queue| && d.state.queue == s.queue[|s.queue| - |d.state.queue|..]
      && (d.state.queue == [] <==> FaultFree(s.registry, s.queue))
      && (d.state.queue != [] ==> Route(s.registry, d.state.queue[0]).NullRightConnection?)
  {
    var ds := Routes(s.registry, s.queue);
    var n := FirstFault(ds);
    RoutesAt(s.registry, s.queue);
    assert |s.queue| - |s.queue[n..]| == n;
    if n < |ds| {
      assert s.queue[n..][0] == s.queue[n];
    }
  }

  /** What a drain sends: the sends of the decisions for the popped messages,
      in queue order, after what had been sent before. */
  lemma DrainSends(s: ServerState)
    ensures var d := Drain(s);
      d.state.sent == s.sent + Emitted(Routes(s.registry, s.queue), s.queue, |s.queue| - |d.state.queue|)
  {
    var n := FirstFault(Routes(s.registry, s.queue));
    assert |s.queue| - |s.queue[n..]| == n;
  }

  /** What a drain records: the decision for each message it looked at, the
      popped ones and then the faulting one, in queue order. */
  lemma DrainOutcomes(s: ServerState)
    ensures var d := Drain(s);
      |d.outcomes| == |s.queue| - |d.state.queue| + (if d.state.queue == [] then 0 else 1)
      && forall i :: 0 <= i < |d.outcomes| ==> d.outcomes[i] == Route(s.registry, s.queue[i])
  {
    var n := FirstFault(Routes(s.registry, s.queue));
    RoutesAt(s.registry, s.queue);
    assert |s.queue| - |s.queue[n..]| == n;
  }

  /** One more message relayed: the send log grows by that message's sends. */
  lemma DrainStep(ds: seq<Decision>, q: seq<Message>, j: nat, sent0: seq<Datagram>, sent: seq<Datagram>)
    requires j < |ds| && j < |q|
    requires sent == sent0 + Emitted(ds, q, j)
    ensures sent + SendsOf(ds[j], q[j]) == sent0 + Emitted(ds, q, j + 1)
  {
    AppendAssoc(sent0, Emitted(ds, q, j), SendsOf(ds[j], q[j]));
  }

  /** The state a drain leaves, from where it stopped: `j` messages relayed
      and popped, then either the queue was empty or message `j` faulted and
      its decision is the last outcome. */
  lemma DrainFinish(s: ServerState, ds: seq<Decision>, j: nat, outcomes: seq<Decision>, sent: seq<Datagram>)
    requires ds == Routes(s.registry, s.queue)
    requires j <= FirstFault(ds)
    requires sent == s.sent + Emitted(ds, s.queue, j)
    requires j < |ds| ==> ds[j].NullRightConnection? && outcomes == ds[..j + 1]
    requires j == |ds| ==> outcomes == ds[..j]
    ensures Drain(s) == Drained(s.(queue := s.queue[j..], sent := sent), outcomes)
  {
    assert FirstFault(ds) == j;
  }

  /** A fault-free queue is drained completely, each message relayed once in
      FIFO order. */
  lemma DrainFaultFreeQueue(s: ServerState)
    requires FaultFree(s.registry, s.queue)
    ensures Drain(s).state == s.(queue := [], sent := s.sent + SendsAll(s.registry, s.queue))
    ensures Drain(s).outcomes == Routes(s.registry, s.queue)
  {
    var ds := Routes(s.registry, s.queue);
    RoutesAt(s.registry, s.queue);
    assert FirstFault(ds) == |ds|;
    PrefixAll(ds);
  }

  // ---------------------------------------------------------- neighbour sync

  datatype SideResult = SideResult(connection: Option<RemoteConnection>, sends: seq<Datagram>)

  /** One side of one maintainToAdjacentServers iteration. No neighbour at
      this position: nothing happens. No connection: resolve, and record the
      neighbour on success; nothing is sent. A connection: send it `sync`. */
  function SyncSide(indexValid: bool, connection: Option<RemoteConnection>, resolved: Option<Endpoint>,
                    neighbourName: string, sync: Message): (r: SideResult)
    ensures !indexValid ==> r == SideResult(connection, [])
    ensures indexValid && connection.None? && resolved.Some? ==>
      r == SideResult(Some(RemoteConnection(neighbourName, resolved.value)), [])
    ensures indexValid && connection.None? && resolved.None? ==> r == SideResult(None, [])
    ensures indexValid && connection.Some? ==> r == SideResult(connection, [Datagram(sync, connection.value.endpoint)])
  {
    if !indexValid then SideResult(connection, [])
    else if connection.None? then
      match resolved
      case Some(ep) => SideResult(Some(RemoteConnection(neighbourName, ep)), [])
      case None => SideResult(None, [])
    else SideResult(connection, [Datagram(sync, connection.value.endpoint)])
  }

  /** One iteration of maintainToAdjacentServers for the server at `index`
      with neighbour positions `leftIndex` and `rightIndex`: the left side,
      then the right side. The client list, the rosters and the queue are
      untouched; the send log grows by the left sync, then the right sync. */
  function Tick(s: ServerState, topology: Topology, index: int, leftIndex: int, rightIndex: int, res: Resolution): (t: ServerState)
    ensures t.registry.clients == s.registry.clients
    ensures t.registry.leftRoster == s.registry.leftRoster && t.registry.rightRoster == s.registry.rightRoster
    ensures t.queue == s.queue
  {
    var clients := s.registry.clients;
    var left := SyncSide(topology.leftIndexIsValid(leftIndex), s.registry.leftConnection, res.left, topology.serverName(leftIndex),
                         SyncMessage(clients, topology.serverName(index), topology.serverName(leftIndex), SyncLeft));
    var right := SyncSide(topology.rightIndexIsValid(rightIndex), s.registry.rightConnection, res.right, topology.serverName(rightIndex),
                          SyncMessage(clients, topology.serverName(index), topology.serverName(rightIndex), SyncRight));
    s.(registry := s.registry.(leftConnection := left.connection, rightConnection := right.connection),
       sent := s.sent + left.sends + right.sends)
  }

  /** Consecutive ticks, one resolver outcome per tick. */
  function Ticks(s: ServerState, topology: Topology, index: int, leftIndex: int, rightIndex: int, rs: seq<Resolution>): ServerState
    decreases |rs|
  {
    if rs == [] then s else Ticks(Tick(s, topology, index, leftIndex, rightIndex, rs[0]), topology, index, leftIndex, rightIndex, rs[1..])
  }

  /** Every tick only appends to the send log. */
  predicate Extends(sent: seq<Datagram>, sent': seq<Datagram>)
  {
    |sent| <= |sent'| && sent'[..|sent|] == sent
  }

  /** At a chain boundary with no left neighbour the left slot is never
      resolved, and every sync sent, over any number of ticks, goes right. */
  lemma {:induction false} NoLeftNeighbourNeverSyncsLeft(s: ServerState, topology: Topology, index: int, leftIndex: int, rightIndex: int, rs: seq<Resolution>)
    requires !topology.leftIndexIsValid(leftIndex)
    ensures var t := Ticks(s, topology, index, leftIndex, rightIndex, rs);
      t.registry.leftConnection == s.registry.leftConnection
      && Extends(s.sent, t.sent)
      && forall k :: |s.sent| <= k < |t.sent| ==> t.sent[k].message.kind == SyncRight
    decreases |rs|
  {
    if rs != [] {
      var s1 := Tick(s, topology, index, leftIndex, rightIndex, rs[0]);
      NoLeftNeighbourNeverSyncsLeft(s1, topology, index, leftIndex, rightIndex, rs[1..]);
      var t := Ticks(s1, topology, index, leftIndex, rightIndex, rs[1..]);
      forall k | |s.sent| <= k < |t.sent| ensures t.sent[k].message.kind == SyncRight {
        if k < |s1.sent| {
          assert t.sent[k] == t.sent[..|s1.sent|][k] == s1.sent[k];
        }
      }
      assert t.sent[..|s.sent|] == t.sent[..|s1.sent|][..|s.sent|];
    }
  }

  /** At a chain boundary with no right neighbour the right slot is never
      resolved, and every sync sent, over any number of ticks, goes left. */
  lemma {:induction false} NoRightNeighbourNeverSyncsRight(s: ServerState, topology: Topology, index: int, leftIndex: int, rightIndex: int, rs: seq<Resolution>)
    requires !topology.rightIndexIsValid(rightIndex)
    ensures var t := Ticks(s, topology, index, leftIndex, rightIndex, rs);
      t.registry.rightConnection == s.registry.rightConnection
      && Extends(s.sent, t.sent)
      && forall k :: |s.sent| <= k < |t.sent| ==> t.sent[k].message.kind == SyncLeft
    decreases |rs|
  {
    if rs != [] {
      var s1 := Tick(s, topology, index, leftIndex, rightIndex, rs[0]);
      NoRightNeighbourNeverSyncsRight(s1, topology, index, leftIndex, rightIndex, rs[1..]);
      var t := Ticks(s1, topology, index, leftIndex, rightIndex, rs[1..]);
      forall k | |s.sent| <= k < |t.sent| ensures t.sent[k].message.kind == SyncLeft {
        if k < |s1.sent| {
          assert t.sent[k] == t.sent[..|s1.sent|][k] == s1.sent[k];
        }
      }
      assert t.sent[..|s.sent|] == t.sent[..|s1.sent|][..|s.sent|];
    }
  }

  /** A neighbour connection, once recorded, is never dropped or replaced by
      later ticks, whatever the resolver would answer. */
  lemma {:induction false} ConnectionNeverTornDown(s: ServerState, topology: Topology, index: int, leftIndex: int, rightIndex: int, rs: seq<Resolution>)
    ensures var t := Ticks(s, topology, index, leftIndex, rightIndex, rs);
      (s.registry.leftConnection.Some? ==> t.registry.leftConnection == s.registry.leftConnection)
      && (s.registry.rightConnection.Some? ==> t.registry.rightConnection == s.registry.rightConnection)
    decreases |rs|
  {
    if rs != [] {
      ConnectionNeverTornDown(Tick(s, topology, index, leftIndex, rightIndex, rs[0]), topology, index, leftIndex, rightIndex, rs[1..]);
    }
  }

  /** Ticks change no client list, so every sync they send carries the same
      roster: this server's client names, in order. */
  lemma {:induction false} SyncPayloadsRepeat(s: ServerState, topology: Topology, index: int, leftIndex: int, rightIndex: int, rs: seq<Resolution>)
    ensures var t := Ticks(s, topology, index, leftIndex, rightIndex, rs);
      t.registry.clients == s.registry.clients
      && Extends(s.sent, t.sent)
      && forall k :: |s.sent| <= k < |t.sent| ==> t.sent[k].message.syncPayload == Identifiers(s.registry.clients)
    decreases |rs|
  {
    if rs != [] {
      var s1 := Tick(s, topology, index, leftIndex, rightIndex, rs[0]);
      SyncPayloadsRepeat(s1, topology, index, leftIndex, rightIndex, rs[1..]);
      var t := Ticks(s1, topology, index, leftIndex, rightIndex, rs[1..]);
      forall k | |s.sent| <= k < |t.sent| ensures t.sent[k].message.syncPayload == Identifiers(s.registry.clients) {
        if k < |s1.sent| {
          assert t.sent[k] == t.sent[..|s1.sent|][k] == s1.sent[k];
        }
      }
      assert t.sent[..|s.sent|] == t.sent[..|s1.sent|][..|s.sent|];
    }
  }

  /** An empty sync clears the roster it targets: no identifier previously
      known on that side survives. */
  lemma EmptySyncClearsRoster(s: ServerState, m: Message, from: Endpoint)
    requires IsSync(m.kind) && m.syncPayload == []
    ensures m.kind.SyncLeft? ==> Ingest(s, m, from).registry.rightRoster == []
    ensures m.kind.SyncRight? ==> Ingest(s, m, from).registry.leftRoster == []
  {
  }
}
