/** ConnectionRegistry: the server's view of who is where. The locally
    connected clients, the rosters the two neighbours last reported, and
    the two optional neighbour connections. The functions here are the
    registry mutators of server.cpp, as values. */
module ConnectionRegistry {
  import opened Peers
  import opened Messages

  datatype Registry = Registry(
    clients: seq<RemoteConnection>,
    leftRoster: seq<string>,
    rightRoster: seq<string>,
    leftConnection: Option<RemoteConnection>,
    rightConnection: Option<RemoteConnection>)

  /** The registry of a freshly constructed server: nobody is known and both
      neighbour connections are absent. */
  const Empty: Registry := Registry([], [], [], None, None)

  /** addClientConnection: the new connection goes at the end of the list,
      whether or not the name is already there. */
  function AddClient(cs: seq<RemoteConnection>, id: string, ep: Endpoint): (r: seq<RemoteConnection>)
    ensures |r| == |cs| + 1
    ensures r[..|cs|] == cs
    ensures r[|cs|] == RemoteConnection(id, ep)
  {
    cs + [RemoteConnection(id, ep)]
  }

  /** removeClientConnection as written: the scan stops after the first entry
      whatever it holds, so only entry 0 can be removed. */
  function RemoveClient(cs: seq<RemoteConnection>, id: string): (r: seq<RemoteConnection>)
    ensures r == cs || (|cs| > 0 && r == cs[1..])
    ensures r != cs <==> |cs| > 0 && cs[0].identifier == id
    ensures |cs| - 1 <= |r| <= |cs|
  {
    if |cs| > 0 && cs[0].identifier == id then cs[1..] else cs
  }

  /** receiveClientsFromAdjacentServers: a sync replaces one roster wholesale.
      A SyncLeft message was sent leftwards by the neighbour on the right, so
      it replaces the right roster; SyncRight replaces the left roster. */
  function ReceiveSync(r: Registry, m: Message): (t: Registry)
    requires IsSync(m.kind)
    ensures t.clients == r.clients
    ensures t.leftConnection == r.leftConnection && t.rightConnection == r.rightConnection
    ensures m.kind.SyncLeft? ==> t.rightRoster == m.syncPayload && t.leftRoster == r.leftRoster
    ensures m.kind.SyncRight? ==> t.leftRoster == m.syncPayload && t.rightRoster == r.rightRoster
  {
    if m.kind.SyncLeft? then r.(rightRoster := m.syncPayload)
    else r.(leftRoster := m.syncPayload)
  }

  /** A client whose name is already registered is added a second time. */
  lemma AddClientKeepsDuplicates(cs: seq<RemoteConnection>, id: string, ep: Endpoint, i: nat)
    requires i < |cs| && cs[i].identifier == id
    ensures var r := AddClient(cs, id, ep);
      r[i].identifier == id && r[|cs|].identifier == id && i != |cs|
  {
    assert AddClient(cs, id, ep)[i] == AddClient(cs, id, ep)[..|cs|][i];
  }

  /** A matching entry behind a non-matching head is never removed. */
  lemma RemoveClientIgnoresLaterMatches(cs: seq<RemoteConnection>, id: string, k: nat)
    requires 0 < k < |cs| && cs[0].identifier != id && cs[k].identifier == id
    ensures RemoveClient(cs, id) == cs
    ensures RemoveClient(cs, id)[k].identifier == id
  {
  }
}
