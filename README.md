# Chain chat server: relay engine

This project models the relay engine of the chat server in
`src/Server/server.cpp`. Servers form a chain. Each server keeps the
clients connected to it directly, plus the rosters its left and right
neighbours last reported. It relays chat and private messages to a local
client, or on to the neighbour that lists the destination. The engine is
the `server` object's state and its three loops:

- `listenLoop` ingests one decoded datagram. It updates the client list or
  a roster and queues every message that is not a roster sync.
- `relayLoop` drains the FIFO queue, routing each message with `relayUDP`.
- `maintainToAdjacentServers` resolves each missing neighbour connection,
  or sends each present neighbour a sync carrying this server's client list.

Each loop is modelled one iteration (or one drain) at a time.

The model has two layers:

- **Pure specification.** Modules `Peers`, `Messages`, `ConnectionRegistry`,
  `Routing` and `RelayEngine` describe the state as values.
  - `Route` is relayUDP's decision for one message; `SendsOf` gives the
    datagrams that decision sends.
  - `Ingest` is one listenLoop iteration.
  - `Drain` is one pass of relayLoop's inner loop. It is defined through
    `Routes`, `Emitted` and `FirstFault`.
  - `Tick` is one maintainToAdjacentServers iteration. `Ticks` is several
    of them.
- **Imperative server.** `ChainServer.Server` is a class whose fields are
  the source's members. Its methods update those fields in place, with
  the same branches and early returns as the source. Each method is proved
  against the matching specification function.

The socket is an append-only log `sent` of (message, endpoint) datagrams.
The resolver's answer for each side of a tick is a parameter. The chain
configuration from `constants` is the `Topology` value: the validity test
for each side and the server name at each position.

Where the code does less than its own comments say, the model follows
the code:

- **Disconnect.** The comment on `removeClientConnection`
  (`src/Server/server.cpp:463`) says it removes the matching client. Its
  scan, however, `break`s after the first entry whatever that entry holds
  (`:476`), so only the head of the list can ever be removed
  (`RemoveClient`, `RemoveClientIgnoresLaterMatches`).
- **Right-roster search.** The right roster is searched only when the
  LEFT neighbour connection is present (`:245`).
  - A right-roster match while the right connection is null dereferences
    a null pointer (`:253`). The model makes this the outcome
    `NullRightConnection`: it sends nothing and ends the drain, with the
    message still at the front of the queue.
  - A server with no left connection drops every message that only its
    right neighbour could deliver.
- **Connections are made once.** The comment on
  `maintainToAdjacentServers` (`:286-287`) says a new connection is made on
  every iteration. The code resolves a slot only while it is null (`:296`,
  `:355`), so a recorded connection is kept for good
  (`ConnectionNeverTornDown`).
- **Duplicate names.** `addClientConnection` appends without checking
  whether the name is already registered (`:457`), so a name can appear
  twice in the client list (`AddClientKeepsDuplicates`).

## Model

| member | source | states |
|---|---|---|
| Peers.FirstIndexOf | src/Server/server.cpp:214-223 | the position the local-client scan stops at: a client with that name with none before it, and None exactly when no client has the name |
| Peers.Identifiers | src/Server/server.cpp:330-334 | the client names a sync carries, one per connected client, in list order |
| Messages.SyncMessage | src/Server/server.cpp:330-334 | a sync has the requested kind, goes from this server's name to the neighbour's, has no text, and carries every connected client's name in order |
| ConnectionRegistry.AddClient | src/Server/server.cpp:453-459 | the list grows by one; the old entries stay in front, and the new (name, endpoint) is last |
| ConnectionRegistry.RemoveClient | src/Server/server.cpp:465-478 | the list changes exactly when its head has the name, and then only the head goes; its length drops by at most one |
| ConnectionRegistry.ReceiveSync | src/Server/server.cpp:422-447 | SyncLeft replaces the right roster with the payload and SyncRight the left one; the other roster, the clients and both connections stay as they were |
| ConnectionRegistry.AddClientKeepsDuplicates | src/Server/server.cpp:457-458 | connecting a name that is already registered leaves two entries with that name |
| ConnectionRegistry.RemoveClientIgnoresLaterMatches | src/Server/server.cpp:468-477 | a matching entry behind a non-matching head is not removed |
| Routing.BroadcastRecipients | src/Server/server.cpp:199-207 | a broadcast never has more recipients than there are clients |
| Routing.Deliveries | src/Server/server.cpp:203-205 | one datagram per recipient, in order, each carrying the message to that recipient's endpoint |
| Routing.RoutePolicy | src/Server/server.cpp:196-263 | each decision holds exactly when its condition does: broadcast for the sentinel; local when some client has the name; left when none does, the left connection is present and the left roster lists it; right or the null dereference when, in addition, the right roster lists it and the left one does not; the address each decision names |
| Routing.BroadcastRecipientsSound | src/Server/server.cpp:199-202 | every broadcast recipient is a connected client not named like the sender |
| Routing.BroadcastRecipientsComplete | src/Server/server.cpp:199-202 | every connected client not named like the sender is a recipient |
| Routing.BroadcastRecipientsNoNamesake | src/Server/server.cpp:199-207 | with no client named like the sender, the broadcast goes to the whole list in order |
| Routing.BroadcastRecipientsAppend | src/Server/server.cpp:199-207 | the recipient filter keeps list order across concatenation |
| Routing.DeliveriesAppend | src/Server/server.cpp:199-207 | sending to two recipient lists is sending to each in turn |
| Routing.BroadcastStep | src/Server/server.cpp:199-207 | one more iteration of the broadcast loop adds that client's datagram exactly when its name differs from the sender's |
| Routing.BroadcastSends | src/Server/server.cpp:196-208 | a broadcast sends the message once to each recipient in list order, and every send goes to a connected client other than the sender, never to a neighbour |
| Routing.LocalUnicast | src/Server/server.cpp:214-223 | with a local match, the first matching client gets exactly one datagram, whatever the rosters list |
| Routing.LeftFallback | src/Server/server.cpp:226-238 | with no local match, a left connection and a left-roster match, exactly one datagram goes to the left neighbour and none elsewhere |
| Routing.RightFallback | src/Server/server.cpp:245-257 | with the left connection present and only the right roster listing the name, exactly one datagram goes to the right neighbour when it is connected |
| Routing.RightRosterGatedOnLeftConnection | src/Server/server.cpp:245 | without a left connection, a destination that is not local is dropped and nothing is sent, even when the right roster lists it |
| Routing.RightMatchWithoutRightConnection | src/Server/server.cpp:245-253 | a right-roster match while the right connection is null is the null-dereference outcome and sends nothing |
| Routing.UnknownDestinationDropped | src/Server/server.cpp:263 | a name that is neither local nor in either roster is dropped and sends nothing |
| Routing.UnicastSendsAtMostOnce | src/Server/server.cpp:211-263 | a unicast message causes at most one datagram |
| RelayEngine.Ingest | src/Server/server.cpp:112-152 | connect appends (sender, address) and disconnect tests the head; syncs replace a roster and are not queued; every other kind is pushed once onto the back of the queue; nothing is sent and no connection changes |
| RelayEngine.Routes | src/Server/server.cpp:171-181 | one decision per queued message |
| RelayEngine.FirstFault | src/Server/server.cpp:245-253 | the position of the first message that reaches the null dereference: none before it, and the fault at it when it is inside the queue |
| RelayEngine.RoutesAt | src/Server/server.cpp:171-176 | decision i of a drain is relayUDP's decision for queued message i |
| RelayEngine.RouteAt | src/Server/server.cpp:171-176 | the same, for one position |
| RelayEngine.RoutesAppend | src/Server/server.cpp:171-181 | routing two queue segments is routing each one in turn |
| RelayEngine.RoutesPrefix | src/Server/server.cpp:171-181 | the decisions for a prefix of the queue are the same prefix of its decisions |
| RelayEngine.DrainQueue | src/Server/server.cpp:171-181 | a drain leaves a suffix of the queue; that suffix is empty exactly when no message faults, and otherwise starts with the faulting message; the registry is unchanged |
| RelayEngine.DrainSends | src/Server/server.cpp:171-181 | a drain appends the sends of the popped messages' decisions to the log, in queue order |
| RelayEngine.DrainOutcomes | src/Server/server.cpp:171-181 | a drain records one decision per popped message, plus the faulting one, each equal to relayUDP's decision for that message |
| RelayEngine.DrainStep | src/Server/server.cpp:176-180 | relaying one more message extends the log by that message's sends |
| RelayEngine.DrainFinish | src/Server/server.cpp:171-181 | wherever the loop stops, at the end of the queue or at the fault, its state and outcomes are the drain's |
| RelayEngine.DrainFaultFreeQueue | src/Server/server.cpp:171-181 | with no fault, the queue ends empty and each message is relayed exactly once, in FIFO order |
| RelayEngine.SyncSide | src/Server/server.cpp:293-349 | one side of a tick. An invalid index changes nothing and sends nothing. A null slot sends nothing, and is set to the named neighbour on resolve success or stays null on failure. A present slot is kept and is sent exactly the sync |
| RelayEngine.Tick | src/Server/server.cpp:289-410 | a tick leaves the clients, both rosters and the queue unchanged |
| RelayEngine.NoLeftNeighbourNeverSyncsLeft | src/Server/server.cpp:293-349 | at a chain end with no left position, any number of ticks keep the left slot, only append to the log, and send only SyncRight messages |
| RelayEngine.NoRightNeighbourNeverSyncsRight | src/Server/server.cpp:352-409 | at a chain end with no right position, any number of ticks keep the right slot, only append to the log, and send only SyncLeft messages |
| RelayEngine.ConnectionNeverTornDown | src/Server/server.cpp:296-324 | a recorded neighbour connection survives any number of ticks unchanged |
| RelayEngine.SyncPayloadsRepeat | src/Server/server.cpp:330-334 | every sync that ticks send carries this server's client names, in order |
| RelayEngine.EmptySyncClearsRoster | src/Server/server.cpp:425-438 | an empty sync empties the roster it targets |
| ChainServer.Server.constructor | src/Server/server.cpp:18-42 | neighbours at index-1 and index+1; no clients, empty rosters, null connections, empty queue and log |
| ChainServer.Server.AddClientConnection | src/Server/server.cpp:453-459 | the client list becomes AddClient of the old one |
| ChainServer.Server.RemoveClientConnection | src/Server/server.cpp:465-478 | the client list becomes RemoveClient of the old one |
| ChainServer.Server.ReceiveClientsFromAdjacentServers | src/Server/server.cpp:422-447 | the registry becomes ReceiveSync of the old one |
| ChainServer.Server.AddToMessageQueue | src/Server/server.cpp:484-489 | the message joins the back of the queue |
| ChainServer.Server.ListenStep | src/Server/server.cpp:112-152 | the state becomes Ingest of the old state |
| ChainServer.Server.BroadcastToClients | src/Server/server.cpp:196-208 | the log grows by the broadcast's deliveries, in list order |
| ChainServer.Server.FindLocalClient | src/Server/server.cpp:214-223 | the scan finds FirstIndexOf the destination |
| ChainServer.Server.RosterContains | src/Server/server.cpp:228-237 | a roster scan answers true exactly when the roster lists the name |
| ChainServer.Server.RelayUDP | src/Server/server.cpp:189-271 | the decision is Route of the registry, and the log grows by exactly that decision's sends |
| ChainServer.Server.RelayFront | src/Server/server.cpp:173-176 | relaying the front of the queue gives its decision in the drain and appends its sends |
| ChainServer.Server.RelayQueue | src/Server/server.cpp:171-181 | the loop stops after j pops, at the end of the queue or at the first fault; the log holds the sends of the first j decisions, and the outcomes are those decisions plus the fault |
| ChainServer.Server.RelayLoop | src/Server/server.cpp:171-181 | the state and outcomes become Drain of the old state |
| ChainServer.Server.MaintainTick | src/Server/server.cpp:293-409 | the state becomes Tick of the old state for this server's indices and the given resolver answers |

## Left out

- Network I/O: `receive_from`, `send_to` and `resolve` are not modelled. A send is an entry in the `sent` log, and a resolution is a parameter (`None` when it throws).
- Errors of individual sends (`ignoredError`, caught exceptions) are not modelled: every send the code attempts is logged.
- Threads: `run`, the thread group, the `m_terminate` flag, the outer `while` loops and the sync sleep are not modelled. Each loop body is one sequential method call, and the unsynchronised sharing between threads is not captured.
- Console output is not modelled. The only notice kept is the "message dropped" notice, as the `Dropped` decision.
- The `dataMessage` wire codec is not part of this model. A message is decoded already, and decode errors caught in `listenLoop` are left out.
- The truncation of oversized datagrams is not modelled: `listenLoop` reads into a 256-byte buffer and ignores the `message_size` error (`src/Server/server.cpp:88-101`), so a longer datagram is decoded from its first 256 bytes. The model's messages are whole.
- The `constants` topology tables are not part of this model. They are the `Topology` parameter.
  - `serverNames[]` and `serverIndexToServerName()` are taken as the same name function.
  - The `int8_t` server index is an unbounded `int`, so no wrap-around at the ends of its range is modelled.
- The source's `assert(false)` on an unknown message type cannot occur: the message kind has exactly six values.
- The case of `receiveClientsFromAdjacentServers` that is neither sync kind is excluded by its precondition, which is all `listenLoop` ever calls it with.
- The null-pointer dereference reached at `src/Server/server.cpp:253` is undefined behaviour in the source. It is modelled as the `NullRightConnection` outcome, which sends nothing and stops the drain.
- `relayBluetooth` is an empty placeholder. It is the no-op method `RelayBluetooth`, which has nothing to state.
- The destructor is left out: it only frees the neighbour connections and closes the socket.
- The client program (`src/Client`) is not part of this model.
- RelayEngine.Tick: its own contract states only what a tick leaves unchanged. Its effect on the two connections and on the log is stated by `SyncSide` and by `ChainServer.Server.MaintainTick`.
