/** Messages: an already decoded datagram of the chat protocol. The byte
    codec (dataMessage) is not part of this model. */
module Messages {
  import opened Peers

  /** The six message kinds the server's switch dispatches on. */
  datatype MessageType = Connection | Disconnect | Chat | PrivateMessage | SyncLeft | SyncRight

  /** Roster-sync messages exchanged between neighbouring servers. */
  predicate IsSync(t: MessageType)
  {
    t.SyncLeft? || t.SyncRight?
  }

  /** The destination sentinel that means every local client but the sender. */
  const BroadcastId: string := "broadcast"

  /** A message: its kind, who sent it, who it is for, its text (the chat or
      private-message body; empty for the other kinds), and the identifiers
      a sync message carries (empty for the other kinds). */
  datatype Message = Message(kind: MessageType, source: string, destination: string, body: string, syncPayload: seq<string>)

  /** The sync message a server sends to a neighbour: this server's own
      client list, from this server's name to the neighbour's name. */
  function SyncMessage(clients: seq<RemoteConnection>, ownName: string, neighbourName: string, kind: MessageType): (m: Message)
    requires IsSync(kind)
    ensures m.kind == kind && m.source == ownName && m.destination == neighbourName && m.body == ""
    ensures |m.syncPayload| == |clients|
    ensures forall i :: 0 <= i < |clients| ==> m.syncPayload[i] == clients[i].identifier
  {
    Message(kind, ownName, neighbourName, "", Identifiers(clients))
  }
}
