/** Routing: where relayUDP sends one message, given the registry. The
    decision is a function of the registry and the message; the sends it
    causes are a function of the decision. */
module Routing {
  import opened Peers
  import opened Messages
  import opened ConnectionRegistry
  import opened SeqFacts

  /** One entry of the socket's send log: a message and the address it was sent to. */
  datatype Datagram = Datagram(message: Message, to: Endpoint)

  /** What relayUDP did with one message. Dropped is the "message dropped,
      client not found" notice. NullRightConnection is a right-roster match
      while the right connection is null: the source dereferences the null
      pointer at that point and sends nothing. */
  datatype Decision =
    | Broadcast(recipients: seq<RemoteConnection>)
    | Local(client: RemoteConnection)
    | ViaLeft(leftNeighbour: Endpoint)
    | ViaRight(rightNeighbour: Endpoint)
    | Dropped
    | NullRightConnection

  /** The connected clients a broadcast from `source` goes to: every client
      whose name differs from the sender's, in list order. */
  function BroadcastRecipients(cs: seq<RemoteConnection>, source: string): (rs: seq<RemoteConnection>)
    ensures |rs| <= |cs|
    decreases |cs|
  {
    if cs == [] then []
    else if cs[0].identifier != source then [cs[0]] + BroadcastRecipients(cs[1..], source)
    else BroadcastRecipients(cs[1..], source)
  }

  /** Sending `m` to each of `rs`, one datagram per recipient, in order. */
  function Deliveries(rs: seq<RemoteConnection>, m: Message): (ds: seq<Datagram>)
    ensures |ds| == |rs|
    ensures forall i :: 0 <= i < |rs| ==> ds[i] == Datagram(m, rs[i].endpoint)
    decreases |rs|
  {
    if rs == [] then [] else [Datagram(m, rs[0].endpoint)] + Deliveries(rs[1..], m)
  }

  /** relayUDP's routing: broadcast to all but the sender; otherwise the first
      local client of that name, else the left neighbour when it is connected
      and lists the name, else, still only when the LEFT connection is
      present, the right neighbour when it lists the name; else dropped. */
  function Route(r: Registry, m: Message): Decision
  {
    if m.destination == BroadcastId then
      Broadcast(BroadcastRecipients(r.clients, m.source))
    else
      match FirstIndexOf(r.clients, m.destination)
      case Some(i) => Local(r.clients[i])
      case None =>
        if r.leftConnection.Some? && m.destination in r.leftRoster then
          ViaLeft(r.leftConnection.value.endpoint)
        else if r.leftConnection.Some? && m.destination in r.rightRoster then
          if r.rightConnection.Some? then ViaRight(r.rightConnection.value.endpoint)
          else NullRightConnection
        else
          Dropped
  }

  /** The datagrams a decision puts on the socket. */
  function SendsOf(d: Decision, m: Message): seq<Datagram>
  {
    match d
    case Broadcast(rs) => Deliveries(rs, m)
    case Local(c) => [Datagram(m, c.endpoint)]
    case ViaLeft(e) => [Datagram(m, e)]
    case ViaRight(e) => [Datagram(m, e)]
    case Dropped => []
    case NullRightConnection => []
  }

  /** The routing policy, case by case: which decision each registry and
      message lead to, and which address each decision names. */
  lemma RoutePolicy(r: Registry, m: Message)
    ensures Route(r, m).Broadcast? <==> m.destination == BroadcastId
    ensures Route(r, m).Broadcast? ==> Route(r, m).recipients == BroadcastRecipients(r.clients, m.source)
    ensures Route(r, m).Local? <==> m.destination != BroadcastId && exists i :: 0 <= i < |r.clients| && r.clients[i].identifier == m.destination
    ensures Route(r, m).Local? ==> Route(r, m).client in r.clients && Route(r, m).client.identifier == m.destination
    ensures Route(r, m).ViaLeft? <==>
      m.destination != BroadcastId && (forall i :: 0 <= i < |r.clients| ==> r.clients[i].identifier != m.destination)
      && r.leftConnection.Some? && m.destination in r.leftRoster
    ensures Route(r, m).ViaLeft? ==> Route(r, m).leftNeighbour == r.leftConnection.value.endpoint
    ensures Route(r, m).ViaRight? || Route(r, m).NullRightConnection? <==>
      m.destination != BroadcastId && (forall i :: 0 <= i < |r.clients| ==> r.clients[i].identifier != m.destination)
      && r.leftConnection.Some? && m.destination !in r.leftRoster && m.destination in r.rightRoster
    ensures Route(r, m).ViaRight? ==> r.rightConnection.Some? && Route(r, m).rightNeighbour == r.rightConnection.value.endpoint
    ensures Route(r, m).NullRightConnection? ==> r.rightConnection.None?
  {
  }

  /** Every recipient of a broadcast is a connected client not named like
      the sender. */
  lemma {:induction false} BroadcastRecipientsSound(cs: seq<RemoteConnection>, source: string)
    ensures forall c :: c in BroadcastRecipients(cs, source) ==> c in cs && c.identifier != source
    decreases |cs|
  {
    if cs != [] {
      BroadcastRecipientsSound(cs[1..], source);
      assert forall c :: c in cs[1..] ==> c in cs;
    }
  }

  /** Every connected client not named like the sender receives the broadcast. */
  lemma {:induction false} BroadcastRecipientsComplete(cs: seq<RemoteConnection>, source: string)
    ensures forall i :: 0 <= i < |cs| && cs[i].identifier != source ==> cs[i] in BroadcastRecipients(cs, source)
    decreases |cs|
  {
    if cs != [] {
      BroadcastRecipientsComplete(cs[1..], source);
      forall i | 0 < i < |cs| && cs[i].identifier != source
        ensures cs[i] in BroadcastRecipients(cs, source)
      {
        TailAt(cs, i);
      }
    }
  }

  /** When nobody connected shares the sender's name, the broadcast goes to
      every client, in list order. */
  lemma {:induction false} BroadcastRecipientsNoNamesake(cs: seq<RemoteConnection>, source: string)
    requires forall i :: 0 <= i < |cs| ==> cs[i].identifier != source
    ensures BroadcastRecipients(cs, source) == cs
    decreases |cs|
  {
    if cs != [] {
      forall i | 0 <= i < |cs[1..]| ensures cs[1..][i].identifier != source {
        TailAt(cs, i + 1);
      }
      BroadcastRecipientsNoNamesake(cs[1..], source);
      SplitAt(cs, 1);
      assert cs[..1] == [cs[0]];
    }
  }

  /** Filtering by sender distributes over concatenation: recipients keep the
      order they have in the client list. */
  lemma {:induction false} BroadcastRecipientsAppend(a: seq<RemoteConnection>, b: seq<RemoteConnection>, source: string)
    ensures BroadcastRecipients(a + b, source) == BroadcastRecipients(a, source) + BroadcastRecipients(b, source)
    decreases |a|
  {
    if a == [] {
      assert a + b == b;
    } else {
      assert (a + b)[0] == a[0];
      assert (a + b)[1..] == a[1..] + b;
      BroadcastRecipientsAppend(a[1..], b, source);
    }
  }

  /** Sending to a concatenation of recipient lists sends to each list in turn. */
  lemma DeliveriesAppend(a: seq<RemoteConnection>, b: seq<RemoteConnection>, m: Message)
    ensures Deliveries(a + b, m) == Deliveries(a, m) + Deliveries(b, m)
  {
    var l, r := Deliveries(a + b, m), Deliveries(a, m) + Deliveries(b, m);
    assert |l| == |r|;
    forall k | 0 <= k < |l| ensures l[k] == r[k] {
      if k < |a| { assert (a + b)[k] == a[k]; } else { assert (a + b)[k] == b[k - |a|]; }
    }
  }

  /** Scanning one more client of the list adds its datagram exactly when
      its name differs from the sender's. */
  lemma BroadcastStep(cs: seq<RemoteConnection>, i: nat, m: Message)
    requires i < |cs|
    ensures Deliveries(BroadcastRecipients(cs[..i + 1], m.source), m)
         == Deliveries(BroadcastRecipients(cs[..i], m.source), m)
            + (if cs[i].identifier != m.source then [Datagram(m, cs[i].endpoint)] else [])
  {
    assert cs[..i + 1] == cs[..i] + [cs[i]];
    BroadcastRecipientsAppend(cs[..i], [cs[i]], m.source);
    DeliveriesAppend(BroadcastRecipients(cs[..i], m.source), BroadcastRecipients([cs[i]], m.source), m);
    assert BroadcastRecipients([cs[i]], m.source) == if cs[i].identifier != m.source then [cs[i]] else [];
  }

  /** Broadcast: one datagram per connected client whose name differs from the
      sender's, each to that client's endpoint, in list order; never to the
      sender, never to a neighbour. */
  lemma BroadcastSends(r: Registry, m: Message)
    requires m.destination == BroadcastId
    ensures var sends := SendsOf(Route(r, m), m);
      sends == Deliveries(BroadcastRecipients(r.clients, m.source), m)
      && forall k :: 0 <= k < |sends| ==>
        sends[k].message == m
        && exists c :: c in r.clients && c.identifier != m.source && sends[k].to == c.endpoint
  {
    var rs := BroadcastRecipients(r.clients, m.source);
    BroadcastRecipientsSound(r.clients, m.source);
    forall k | 0 <= k < |rs|
      ensures exists c :: c in r.clients && c.identifier != m.source && Deliveries(rs, m)[k].to == c.endpoint
    {
      assert rs[k] in rs;
    }
  }

  /** Local unicast: the first connected client with the destination name gets
      exactly one datagram, and nothing goes to a neighbour even when a roster
      also lists the name. */
  lemma LocalUnicast(r: Registry, m: Message, i: nat)
    requires m.destination != BroadcastId
    requires i < |r.clients| && r.clients[i].identifier == m.destination
    requires forall j :: 0 <= j < i ==> r.clients[j].identifier != m.destination
    ensures Route(r, m) == Local(r.clients[i])
    ensures SendsOf(Route(r, m), m) == [Datagram(m, r.clients[i].endpoint)]
  {
  }

  /** Left fallback: no local match, a left connection and a left-roster match
      give exactly one datagram, to the left neighbour. */
  lemma LeftFallback(r: Registry, m: Message)
    requires m.destination != BroadcastId
    requires forall i :: 0 <= i < |r.clients| ==> r.clients[i].identifier != m.destination
    requires r.leftConnection.Some? && m.destination in r.leftRoster
    ensures SendsOf(Route(r, m), m) == [Datagram(m, r.leftConnection.value.endpoint)]
  {
  }

  /** Right fallback: with the left connection present and only the right
      roster listing the name, exactly one datagram goes to the right
      neighbour when it is connected. */
  lemma RightFallback(r: Registry, m: Message)
    requires m.destination != BroadcastId
    requires forall i :: 0 <= i < |r.clients| ==> r.clients[i].identifier != m.destination
    requires r.leftConnection.Some? && m.destination !in r.leftRoster && m.destination in r.rightRoster
    requires r.rightConnection.Some?
    ensures SendsOf(Route(r, m), m) == [Datagram(m, r.rightConnection.value.endpoint)]
  {
  }

  /** The right roster is consulted only when the left connection is present:
      without it, a name that only the right neighbour lists is dropped. */
  lemma RightRosterGatedOnLeftConnection(r: Registry, m: Message)
    requires m.destination != BroadcastId
    requires forall i :: 0 <= i < |r.clients| ==> r.clients[i].identifier != m.destination
    requires r.leftConnection.None?
    ensures Route(r, m) == Dropped
    ensures SendsOf(Route(r, m), m) == []
  {
  }

  /** A right-roster match while the right connection is null reaches the null
      dereference; no datagram is sent. */
  lemma RightMatchWithoutRightConnection(r: Registry, m: Message)
    requires m.destination != BroadcastId
    requires forall i :: 0 <= i < |r.clients| ==> r.clients[i].identifier != m.destination
    requires r.leftConnection.Some? && m.destination !in r.leftRoster && m.destination in r.rightRoster
    requires r.rightConnection.None?
    ensures Route(r, m) == NullRightConnection
    ensures SendsOf(Route(r, m), m) == []
  {
  }

  /** A name that is neither local nor in either roster is dropped with the
      notice and causes no send. */
  lemma UnknownDestinationDropped(r: Registry, m: Message)
    requires m.destination != BroadcastId
    requires forall i :: 0 <= i < |r.clients| ==> r.clients[i].identifier != m.destination
    requires m.destination !in r.leftRoster && m.destination !in r.rightRoster
    ensures Route(r, m) == Dropped
    ensures SendsOf(Route(r, m), m) == []
  {
  }

  /** A unicast message is sent at most once. */
  lemma UnicastSendsAtMostOnce(r: Registry, m: Message)
    requires m.destination != BroadcastId
    ensures |SendsOf(Route(r, m), m)| <= 1
  {
  }
}
