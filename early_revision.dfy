/** The first revision of the matchmaking server (RandomChat/Class1.cs), kept apart from
    the current one because it behaves differently: the queue is a FIFO `Queue`, only
    `PartnerMessage` is relayed (with no check for empty text), and disconnection never
    releases the partner nor takes the leaver off the queue. A send to an id the
    transport no longer knows throws, and the exception ends the handler. */
module EarlyRevision {

  import opened Wrappers
  import opened LegacyMessages
  import opened Observers
  import Matchmaking

  type ClientId = Matchmaking.ClientId

  /** One `SendAsync(to, message)` call that reached a registered client. */
  datatype Delivery = Delivery(to: ClientId, message: ServerMessage)

  /** The lookup-and-test of Class1.cs line 89: the partner recorded for `client`, when
      there is one and the transport no longer knows it. */
  function PartnerToRelease(rooms: map<ClientId, ClientId>, connected: set<ClientId>, client: ClientId)
    : Option<ClientId>
  {
    if client in rooms && rooms[client] !in connected then Some(rooms[client]) else None
  }

  /** Looking the leaver up after its entry is removed never finds a partner, whatever the
      rooms and the registry hold. */
  lemma LookupAfterRemovalFindsNothing(rooms: map<ClientId, ClientId>, connected: set<ClientId>, client: ClientId)
    ensures PartnerToRelease(rooms - {client}, connected, client) == None
  {
  }

  /** Even with the lookup made before the removal, the test asks for a partner the
      transport has already dropped: a partner still connected is never released. */
  lemma ConnectedPartnerIsNeverReleased(rooms: map<ClientId, ClientId>, connected: set<ClientId>, client: ClientId)
    requires client in rooms && rooms[client] in connected
    ensures PartnerToRelease(rooms, connected, client) == None
  {
  }

  class RandomServer {

    /** `_waitingClients`, oldest first. */
    var waiting: seq<ClientId>
    /** `_rooms`: client to partner. */
    var rooms: map<ClientId, ClientId>
    /** The ids the transport has registered (Tcp/Server.cs:83, 148). */
    var connected: set<ClientId>
    /** Every `SendAsync` call that reached a registered client, in call order. */
    var outbox: seq<Delivery>
    /** Every id ever registered: the transport hands out a fresh `Guid` per connection. */
    ghost var seen: set<ClientId>

    /** What this revision keeps: at most one waiting client, who is in no room, neither
        as a key nor as a partner; nobody is their own partner; an entry whose partner
        still has an entry points back. Entries may outlive the partner's connection. */
    ghost predicate Valid()
      reads this
    {
      && |waiting| <= 1
      && (forall c :: c in waiting ==> c in seen && c !in rooms && c !in rooms.Values)
      && (forall c :: c in rooms ==> rooms[c] != c && (rooms[c] in rooms ==> rooms[rooms[c]] == c))
      && rooms.Keys <= seen && rooms.Values <= seen && connected <= seen
    }

    constructor ()
      ensures Valid()
      ensures waiting == [] && rooms == map[] && connected == {} && outbox == [] && seen == {}
    {
      waiting, rooms, connected, outbox := [], map[], {}, [];
      seen := {};
    }

    /** `WaitingClients`: a snapshot of the queue; never more than one client, and never
        one with a room entry. */
    function WaitingClients(): (w: seq<ClientId>)
      reads this
      requires Valid()
      ensures |w| <= 1
      ensures forall c :: c in w ==> c !in rooms && c !in rooms.Values
    {
      waiting
    }

    /** `Rooms`: a snapshot of the partner map; nobody is their own partner and an entry
        whose partner has an entry is answered by it. */
    function Rooms(): (r: map<ClientId, ClientId>)
      reads this
      requires Valid()
      ensures forall c :: c in r ==> r[c] != c && (r[c] in r ==> r[r[c]] == c)
      ensures forall c :: c in r ==> c !in waiting
    {
      rooms
    }

    /** The transport's `SendAsync`: delivered to a registered id, otherwise the lookup
        throws (`delivered` is false) and nothing is written. */
    method Send(to: ClientId, message: ServerMessage) returns (delivered: bool)
      modifies this`outbox
      ensures delivered <==> to in connected
      ensures outbox == if delivered then old(outbox) + [Delivery(to, message)] else old(outbox)
    {
      delivered := to in connected;
      if delivered {
        outbox := outbox + [Delivery(to, message)];
      }
    }

    /** `OnClientConnected`: the transport registers a fresh id and the handler enqueues
        it. A first client waits; a second is paired with the queued one, who is told
        `PartnerConnected` first, and when that send fails (the queued client has left)
        the newcomer is never told. */
    method OnClientConnected(client: ClientId)
      requires Valid()
      requires client !in seen
      modifies this
      ensures Valid()
      ensures seen == old(seen) + {client} && connected == old(connected) + {client}
      ensures old(waiting) == [] ==>
        && waiting == [client]
        && rooms == old(rooms)
        && outbox == old(outbox) + [Delivery(client, ServerMessage(WaitingForPartner))]
      ensures old(waiting) != [] ==>
        var other := old(waiting)[0];
        && waiting == []
        && rooms == old(rooms)[other := client][client := other]
        && outbox == old(outbox) + [Delivery(client, ServerMessage(WaitingForPartner))]
                   + (if other in old(connected)
                      then [Delivery(other, ServerMessage(PartnerConnected)),
                            Delivery(client, ServerMessage(PartnerConnected))]
                      else [])
    {
      seen := seen + {client};
      connected := connected + {client};
      EnqueueClient(client);
    }

    /** `OnClientMessage`: a `PartnerMessage` with text (empty text included) from a
        client with a room entry is sent to the recorded partner, which fails silently
        when the partner has left; everything else is dropped. */
    method OnClientMessage(client: ClientId, message: ServerMessage)
      modifies this`outbox
      ensures message.Type == PartnerMessage && message.Data != None
              && client in rooms && rooms[client] in connected ==>
        outbox == old(outbox) + [Delivery(rooms[client], ServerMessage(PartnerMessage, message.Data))]
      ensures message.Type != PartnerMessage || message.Data == None
              || client !in rooms || rooms[client] !in connected ==>
        outbox == old(outbox)
    {
      if message.Type != PartnerMessage {
        return;
      }
      if message.Data == None {
        return;   // logged as a warning: the partner message is null
      }
      if client !in rooms {
        return;   // logged as a warning: the client is not in a room
      }
      var partner := rooms[client];
      var _ := Send(partner, ServerMessage(PartnerMessage, message.Data));
    }

    /** `OnClientDisconnected`: the leaver's own room entry is removed, then the partner
        is looked up under the leaver's id, which has just been removed, so nothing more
        happens; the transport then unregisters the leaver. The queue, the partner's
        entry and the partner's messages are left as they were. */
    method OnClientDisconnected(client: ClientId)
      requires Valid()
      modifies this`rooms, this`connected
      ensures Valid()
      ensures rooms == old(rooms) - {client}
      ensures connected == old(connected) - {client}
      ensures waiting == old(waiting) && outbox == old(outbox)
    {
      rooms := rooms - {client};
      var release := PartnerToRelease(rooms, connected, client);
      if release.Some? {
        assert false;   // the partner would be told and enqueued here, lines 91-96
      }
      connected := connected - {client};
    }

    /** `EnqueueClient`: appends the client to the queue and tells it
        `WaitingForPartner`, then tries to pair the two oldest. */
    method EnqueueClient(client: ClientId)
      requires client in connected && client in seen
      requires |waiting| <= 1 && client !in waiting && client !in rooms && client !in rooms.Values
      requires forall c :: c in waiting ==> c !in rooms && c !in rooms.Values
      modifies this`waiting, this`rooms, this`outbox
      ensures
        var queue := old(waiting) + [client];
        if |queue| < 2 then
          && waiting == queue
          && rooms == old(rooms)
          && outbox == old(outbox) + [Delivery(client, ServerMessage(WaitingForPartner))]
        else
          && waiting == []
          && rooms == old(rooms)[queue[0] := queue[1]][queue[1] := queue[0]]
          && outbox == old(outbox) + [Delivery(client, ServerMessage(WaitingForPartner))]
                     + (if queue[0] in connected
                        then [Delivery(queue[0], ServerMessage(PartnerConnected)),
                              Delivery(queue[1], ServerMessage(PartnerConnected))]
                        else [])
    {
      waiting := waiting + [client];
      var delivered := Send(client, ServerMessage(WaitingForPartner));
      if delivered {
        TryMatchMaking();
      }
    }

    /** `TryMatchMaking`: with fewer than two queued nothing happens; otherwise the two
        oldest are dequeued and both room entries added (`Dictionary.Add`: neither is a
        key yet), then the first and the second are told `PartnerConnected`; a failed
        first send ends the handler before the second. */
    method TryMatchMaking()
      requires |waiting| <= 2 && (|waiting| == 2 ==> waiting[0] != waiting[1])
      requires forall c :: c in waiting ==> c !in rooms
      modifies this`waiting, this`rooms, this`outbox
      ensures |old(waiting)| < 2 ==>
        waiting == old(waiting) && rooms == old(rooms) && outbox == old(outbox)
      ensures |old(waiting)| == 2 ==>
        var client1, client2 := old(waiting)[0], old(waiting)[1];
        && waiting == []
        && rooms == old(rooms)[client1 := client2][client2 := client1]
        && outbox == old(outbox)
                     + (if client1 in connected
                        then [Delivery(client1, ServerMessage(PartnerConnected))]
                             + (if client2 in connected
                                then [Delivery(client2, ServerMessage(PartnerConnected))]
                                else [])
                        else [])
    {
      if |waiting| < 2 {
        return;
      }
      var client1 := waiting[0];
      waiting := waiting[1..];
      var client2 := waiting[0];
      waiting := waiting[1..];
      rooms := rooms[client1 := client2];
      rooms := rooms[client2 := client1];
      var delivered := Send(client1, ServerMessage(PartnerConnected));
      if delivered {
        var _ := Send(client2, ServerMessage(PartnerConnected));
      }
    }
  }

  /** The client's `OnServerDisconnected` in this revision (Class1.cs, lines 243-246)
      throws; the rest of that client is the code of RandomChat/RandomClient.cs, modelled
      by `PartnerClient.RandomClient`. */
  method OnServerDisconnected() returns (result: TaskResult)
    ensures result == Faulted("NotImplementedException")
  {
    result := Faulted("NotImplementedException");
  }

  /** A paired client leaves: its partner is told nothing, keeps a room entry naming the
      departed client, is not queued again, and what it sends next goes nowhere. */
  method DisconnectStrandsPartner(client1: ClientId, client2: ClientId, text: string)
    returns (waiting: seq<ClientId>, rooms: map<ClientId, ClientId>, outbox: seq<Delivery>)
    requires client1 != client2
    ensures waiting == [] && rooms == map[client2 := client1]
    ensures outbox == [Delivery(client1, ServerMessage(WaitingForPartner)),
                       Delivery(client2, ServerMessage(WaitingForPartner)),
                       Delivery(client1, ServerMessage(PartnerConnected)),
                       Delivery(client2, ServerMessage(PartnerConnected))]
  {
    var server := new RandomServer();
    server.OnClientConnected(client1);
    server.OnClientConnected(client2);
    server.OnClientDisconnected(client1);
    assert server.rooms == map[client2 := client1];
    server.OnClientMessage(client2, ServerMessage(PartnerMessage, Some(text)));
    waiting, rooms, outbox := server.waiting, server.rooms, server.outbox;
  }

  /** A waiting client leaves before anyone else arrives: it stays queued, the next
      arrival is paired with it, and the newcomer is never told `PartnerConnected`. */
  method DepartedWaiterStaysQueued(client1: ClientId, client2: ClientId)
    returns (waiting: seq<ClientId>, rooms: map<ClientId, ClientId>, outbox: seq<Delivery>)
    requires client1 != client2
    ensures waiting == [] && rooms == map[client1 := client2, client2 := client1]
    ensures outbox == [Delivery(client1, ServerMessage(WaitingForPartner)),
                       Delivery(client2, ServerMessage(WaitingForPartner))]
  {
    var server := new RandomServer();
    server.OnClientConnected(client1);
    server.OnClientDisconnected(client1);
    server.OnClientConnected(client2);
    waiting, rooms, outbox := server.waiting, server.rooms, server.outbox;
  }
}
