/** The matchmaking server of the current revision (RandomChat/RandomServer.cs): a FIFO
    list of waiting clients, a partner map holding each room as two reciprocal entries,
    and the messages handed to the transport, in order. */
module Matchmaking {

  import opened Wrappers
  import opened Lists
  import opened Messages

  /** Stands for the `Guid` the transport assigns to a connection; only equality is used. */
  type ClientId = nat

  /** One `SendAsync(to, message)` call on the transport. */
  datatype Delivery = Delivery(to: ClientId, message: ServerMessage)

  /** Every entry of the partner map has a reciprocal entry, and nobody is paired with
      themself: the map is a set of two-member rooms. */
  predicate Symmetric(rooms: map<ClientId, ClientId>) {
    forall c :: c in rooms ==> rooms[c] != c && rooms[c] in rooms && rooms[rooms[c]] == c
  }

  /** Pairing two unpaired, distinct clients keeps the partner map symmetric. */
  lemma PairKeepsSymmetry(rooms: map<ClientId, ClientId>, a: ClientId, b: ClientId)
    requires Symmetric(rooms) && a != b && a !in rooms && b !in rooms
    ensures Symmetric(rooms[a := b][b := a])
  {
  }

  /** Removing both entries of a room keeps the partner map symmetric. */
  lemma UnpairKeepsSymmetry(rooms: map<ClientId, ClientId>, a: ClientId)
    requires Symmetric(rooms) && a in rooms
    ensures Symmetric(rooms - {a, rooms[a]})
  {
    var b := rooms[a];
    forall c | c in rooms - {a, b}
      ensures (rooms - {a, b})[c] != c && (rooms - {a, b})[c] in rooms - {a, b}
    {
      assert rooms[c] != a && rooms[c] != b;
    }
  }

  /** The server invariant, on values: the waiting list has no duplicates and holds at
      most one client, nobody is both waiting and paired, rooms are symmetric, and every
      connected client is either waiting or paired (nobody is stranded). */
  ghost predicate Consistent(waiting: seq<ClientId>, rooms: map<ClientId, ClientId>, connected: set<ClientId>) {
    && NoDuplicates(waiting)
    && |waiting| <= 1
    && (forall c :: c in waiting ==> c !in rooms)
    && Symmetric(rooms)
    && (forall c :: c in connected <==> c in waiting || c in rooms)
  }

  /** Disconnecting an unpaired client leaves a consistent state. */
  lemma DisconnectUnpairedKeepsConsistency(
    waiting: seq<ClientId>, rooms: map<ClientId, ClientId>, connected: set<ClientId>, client: ClientId)
    requires Consistent(waiting, rooms, connected) && client !in rooms
    ensures Consistent(if waiting == [client] then [] else waiting, rooms, connected - {client})
  {
  }

  /** Disconnecting a paired client while nobody waits leaves a consistent state: the
      room is gone and the partner waits alone. */
  lemma DisconnectPairedKeepsConsistency(
    waiting: seq<ClientId>, rooms: map<ClientId, ClientId>, connected: set<ClientId>, client: ClientId)
    requires Consistent(waiting, rooms, connected) && client in rooms && waiting == []
    ensures Consistent([rooms[client]], rooms - {client, rooms[client]}, connected - {client})
  {
    UnpairKeepsSymmetry(rooms, client);
  }

  /** Disconnecting a paired client while another client waits leaves a consistent state:
      the partner is paired at once with the waiting client. */
  lemma DisconnectRepairsKeepsConsistency(
    waiting: seq<ClientId>, rooms: map<ClientId, ClientId>, connected: set<ClientId>, client: ClientId)
    requires Consistent(waiting, rooms, connected) && client in rooms && waiting != []
    ensures
      var partner, other := rooms[client], waiting[0];
      Consistent([], (rooms - {client, partner})[other := partner][partner := other], connected - {client})
  {
    var partner := rooms[client];
    UnpairKeepsSymmetry(rooms, client);
    PairKeepsSymmetry(rooms - {client, partner}, waiting[0], partner);
  }

  class RandomServer {

    /** `_waitingClients`, oldest first. */
    var waiting: seq<ClientId>
    /** `_rooms`: client to partner. */
    var rooms: map<ClientId, ClientId>
    /** The ids the transport has registered (Tcp/Server.cs:83, 148); `SendAsync` to any
        other id throws. */
    var connected: set<ClientId>
    /** Every `SendAsync` call, in call order. */
    var outbox: seq<Delivery>

    /** The invariant every handler keeps. */
    ghost predicate Valid()
      reads this
    {
      Consistent(waiting, rooms, connected)
    }

    constructor ()
      ensures Valid()
      ensures waiting == [] && rooms == map[] && connected == {} && outbox == []
    {
      waiting, rooms, connected, outbox := [], map[], {}, [];
    }

    /** `WaitingClients`: a snapshot of the waiting list; never more than one client. */
    function WaitingClients(): (w: seq<ClientId>)
      reads this
      requires Valid()
      ensures |w| <= 1 && NoDuplicates(w)
      ensures forall c :: c in w ==> c in connected && c !in rooms
    {
      waiting
    }

    /** `Rooms`: a snapshot of the partner map, which is symmetric. */
    function Rooms(): (r: map<ClientId, ClientId>)
      reads this
      requires Valid()
      ensures Symmetric(r)
      ensures forall c :: c in r ==> c in connected && c !in waiting
    {
      rooms
    }

    /** The transport's `SendAsync`; only ever called for a registered id. */
    method Send(to: ClientId, message: ServerMessage)
      requires to in connected
      modifies this`outbox
      ensures outbox == old(outbox) + [Delivery(to, message)]
    {
      outbox := outbox + [Delivery(to, message)];
    }

    /** `OnClientConnected`: the transport registers the new id, then the handler
        enqueues it. A first client waits; a second one is paired with the one waiting. */
    method OnClientConnected(client: ClientId)
      requires Valid()
      requires client !in connected
      modifies this
      ensures Valid()
      ensures connected == old(connected) + {client}
      ensures old(waiting) == [] ==>
        && waiting == [client]
        && rooms == old(rooms)
        && outbox == old(outbox) + [Delivery(client, ServerMessage(WaitingForPartner))]
      ensures old(waiting) != [] ==>
        var other := old(waiting)[0];
        && waiting == []
        && rooms == old(rooms)[other := client][client := other]
        && outbox == old(outbox) + [Delivery(client, ServerMessage(WaitingForPartner)),
                                    Delivery(other, ServerMessage(PartnerConnected)),
                                    Delivery(client, ServerMessage(PartnerConnected))]
    {
      connected := connected + {client};
      EnqueueClient(client);
      if old(waiting) != [] {
        PairKeepsSymmetry(old(rooms), old(waiting)[0], client);
      }
    }

    /** `OnClientMessage`: a non-empty `PartnerMessage` from a paired client goes, with the
        same text, to its partner only; `PartnerTyping` from a paired client goes to its
        partner; everything else is dropped. The queue and the rooms never change. */
    method OnClientMessage(client: ClientId, message: ServerMessage)
      requires Valid()
      modifies this`outbox
      ensures Valid()
      ensures message.Type == PartnerMessage && message.Data != None && message.Data != Some("")
              && client in rooms ==>
        outbox == old(outbox) + [Delivery(rooms[client], ServerMessage(PartnerMessage, message.Data))]
      ensures message.Type == PartnerTyping && client in rooms ==>
        outbox == old(outbox) + [Delivery(rooms[client], ServerMessage(PartnerTyping))]
      ensures message.Type == PartnerMessage
              && (message.Data == None || message.Data == Some("") || client !in rooms) ==>
        outbox == old(outbox)
      ensures message.Type == PartnerTyping && client !in rooms ==> outbox == old(outbox)
      ensures message.Type in {WaitingForPartner, PartnerConnected, PartnerDisconnected} ==>
        outbox == old(outbox)
    {
      match message.Type {
        case PartnerMessage =>
          if message.Data == None || message.Data == Some("") {
            return;
          }
          if client !in rooms {
            return;   // logged as a warning: the client is not in a room
          }
          var partner := rooms[client];
          Send(partner, ServerMessage(PartnerMessage, message.Data));
        case PartnerTyping =>
          if client in rooms {
            var partner := rooms[client];
            Send(partner, ServerMessage(PartnerTyping));
          }
        case _ =>
      }
    }

    /** `OnClientDisconnected`: the leaver is taken off the waiting list; if it was paired,
        its partner is told `PartnerDisconnected`, loses its room entry and is enqueued
        again (and so paired with a waiting client, if there is one); finally the leaver's
        own entry goes and the transport unregisters it. */
    method OnClientDisconnected(client: ClientId)
      requires Valid()
      modifies this
      ensures Valid()
      ensures connected == old(connected) - {client}
      ensures client !in waiting && client !in rooms
      ensures client !in old(rooms) ==>
        && waiting == (if old(waiting) == [client] then [] else old(waiting))
        && rooms == old(rooms)
        && outbox == old(outbox)
      ensures client in old(rooms) && old(waiting) == [] ==>
        var partner := old(rooms)[client];
        && waiting == [partner]
        && rooms == old(rooms) - {client, partner}
        && outbox == old(outbox) + [Delivery(partner, ServerMessage(PartnerDisconnected)),
                                    Delivery(partner, ServerMessage(WaitingForPartner))]
      ensures client in old(rooms) && old(waiting) != [] ==>
        var partner, other := old(rooms)[client], old(waiting)[0];
        && waiting == []
        && rooms == (old(rooms) - {client, partner})[other := partner][partner := other]
        && outbox == old(outbox) + [Delivery(partner, ServerMessage(PartnerDisconnected)),
                                    Delivery(partner, ServerMessage(WaitingForPartner)),
                                    Delivery(other, ServerMessage(PartnerConnected)),
                                    Delivery(partner, ServerMessage(PartnerConnected))]
    {
      waiting := RemoveFirst(waiting, client);
      if client in rooms {
        assert waiting == old(waiting);
        var partner := rooms[client];
        ReleasePartner(partner);
        if old(waiting) != [] {
          DisconnectRepairsKeepsConsistency(old(waiting), old(rooms), old(connected), client);
          assert rooms - {client}
              == (old(rooms) - {client, partner})[old(waiting)[0] := partner][partner := old(waiting)[0]];
        } else {
          DisconnectPairedKeepsConsistency(old(waiting), old(rooms), old(connected), client);
          assert rooms - {client} == old(rooms) - {client, partner};
        }
      } else {
        DisconnectUnpairedKeepsConsistency(old(waiting), old(rooms), old(connected), client);
        assert waiting == if old(waiting) == [client] then [] else old(waiting);
      }
      rooms := rooms - {client};
      connected := connected - {client};
    }

    /** The paired case of `OnClientDisconnected`: the partner is told
        `PartnerDisconnected`, loses its own room entry and is enqueued again. */
    method ReleasePartner(partner: ClientId)
      requires partner in connected && partner in rooms && partner !in waiting
      requires |waiting| <= 1
      requires forall c :: c in waiting ==> c in connected && c !in rooms
      modifies this`waiting, this`rooms, this`outbox
      ensures old(waiting) == [] ==>
        && waiting == [partner]
        && rooms == old(rooms) - {partner}
        && outbox == old(outbox) + [Delivery(partner, ServerMessage(PartnerDisconnected)),
                                    Delivery(partner, ServerMessage(WaitingForPartner))]
      ensures |old(waiting)| == 1 ==>
        var other := old(waiting)[0];
        && waiting == []
        && rooms == (old(rooms) - {partner})[other := partner][partner := other]
        && outbox == old(outbox) + [Delivery(partner, ServerMessage(PartnerDisconnected)),
                                    Delivery(partner, ServerMessage(WaitingForPartner)),
                                    Delivery(other, ServerMessage(PartnerConnected)),
                                    Delivery(partner, ServerMessage(PartnerConnected))]
    {
      Send(partner, ServerMessage(PartnerDisconnected));
      rooms := rooms - {partner};
      EnqueueClient(partner);
    }

    /** `EnqueueClient`: appends the client to the waiting list, tells it
        `WaitingForPartner`, then tries to pair the two oldest waiters. */
    method EnqueueClient(client: ClientId)
      requires client in connected && client !in waiting && client !in rooms
      requires NoDuplicates(waiting)
      requires forall c :: c in waiting ==> c in connected && c !in rooms
      modifies this`waiting, this`rooms, this`outbox
      ensures
        var queue := old(waiting) + [client];
        if |queue| < 2 then
          && waiting == queue
          && rooms == old(rooms)
          && outbox == old(outbox) + [Delivery(client, ServerMessage(WaitingForPartner))]
        else
          && waiting == queue[2..]
          && rooms == old(rooms)[queue[0] := queue[1]][queue[1] := queue[0]]
          && outbox == old(outbox) + [Delivery(client, ServerMessage(WaitingForPartner)),
                                      Delivery(queue[0], ServerMessage(PartnerConnected)),
                                      Delivery(queue[1], ServerMessage(PartnerConnected))]
    {
      waiting := waiting + [client];
      Send(client, ServerMessage(WaitingForPartner));
      TryMatchMaking();
    }

    /** `TryMatchMaking`: with fewer than two waiters nothing happens; otherwise the first
        two entries, the oldest, leave the list and are paired. */
    method TryMatchMaking()
      requires NoDuplicates(waiting)
      requires forall c :: c in waiting ==> c in connected && c !in rooms
      modifies this`waiting, this`rooms, this`outbox
      ensures |old(waiting)| < 2 ==>
        waiting == old(waiting) && rooms == old(rooms) && outbox == old(outbox)
      ensures |old(waiting)| >= 2 ==>
        var client1, client2 := old(waiting)[0], old(waiting)[1];
        && waiting == old(waiting)[2..]
        && rooms == old(rooms)[client1 := client2][client2 := client1]
        && outbox == old(outbox) + [Delivery(client1, ServerMessage(PartnerConnected)),
                                    Delivery(client2, ServerMessage(PartnerConnected))]
    {
      if |waiting| < 2 {
        return;
      }
      var client1 := waiting[0];
      var client2 := waiting[1];
      RemoveFirstTwo(waiting);
      waiting := RemoveFirst(waiting, client1);
      waiting := RemoveFirst(waiting, client2);
      MatchClients(client1, client2);
    }

    /** `MatchClients`: adds both directions of the room (`Dictionary.Add`, which throws on
        a key already present) and tells the first, then the second, `PartnerConnected`. */
    method MatchClients(client1: ClientId, client2: ClientId)
      requires client1 != client2 && client1 !in rooms && client2 !in rooms
      requires client1 in connected && client2 in connected
      modifies this`rooms, this`outbox
      ensures rooms == old(rooms)[client1 := client2][client2 := client1]
      ensures outbox == old(outbox) + [Delivery(client1, ServerMessage(PartnerConnected)),
                                       Delivery(client2, ServerMessage(PartnerConnected))]
    {
      rooms := rooms[client1 := client2];
      rooms := rooms[client2 := client1];
      Send(client1, ServerMessage(PartnerConnected));
      Send(client2, ServerMessage(PartnerConnected));
    }
  }

  /** The first arrival of the k-th pair: arrivals pair up two by two, in order. */
  function FirstOfPair(arrivals: seq<ClientId>, k: nat): ClientId
    requires 2 * k + 1 < |arrivals|
  {
    arrivals[2 * k]
  }

  /** The second arrival of the k-th pair. */
  function SecondOfPair(arrivals: seq<ClientId>, k: nat): ClientId
    requires 2 * k + 1 < |arrivals|
  {
    arrivals[2 * k + 1]
  }

  /** The first `pairs` pairs of arrivals each share a room. */
  ghost predicate PairedUpTo(arrivals: seq<ClientId>, rooms: map<ClientId, ClientId>, pairs: nat)
    requires 2 * pairs <= |arrivals|
  {
    forall k :: 0 <= k < pairs ==>
      && FirstOfPair(arrivals, k) in rooms && rooms[FirstOfPair(arrivals, k)] == SecondOfPair(arrivals, k)
      && SecondOfPair(arrivals, k) in rooms && rooms[SecondOfPair(arrivals, k)] == FirstOfPair(arrivals, k)
  }

  /** Pairing the waiting arrival with the next one extends the pairs already made by
      one more. */
  lemma PairNextArrivals(arrivals: seq<ClientId>, rooms: map<ClientId, ClientId>, pairs: nat)
    requires NoDuplicates(arrivals) && 2 * pairs + 1 < |arrivals|
    requires PairedUpTo(arrivals, rooms, pairs)
    ensures
      var first, second := FirstOfPair(arrivals, pairs), SecondOfPair(arrivals, pairs);
      PairedUpTo(arrivals, rooms[first := second][second := first], pairs + 1)
  {
    var first, second := FirstOfPair(arrivals, pairs), SecondOfPair(arrivals, pairs);
    var rooms' := rooms[first := second][second := first];
    forall k | 0 <= k < pairs + 1
      ensures && FirstOfPair(arrivals, k) in rooms' && rooms'[FirstOfPair(arrivals, k)] == SecondOfPair(arrivals, k)
              && SecondOfPair(arrivals, k) in rooms' && rooms'[SecondOfPair(arrivals, k)] == FirstOfPair(arrivals, k)
    {
      if k < pairs {
        assert FirstOfPair(arrivals, k) != first && FirstOfPair(arrivals, k) != second;
        assert SecondOfPair(arrivals, k) != first && SecondOfPair(arrivals, k) != second;
      }
    }
  }

  /** Clients connecting one after another, with nobody leaving: the 1st and 2nd arrivals
      share a room, then the 3rd and 4th, and so on; with an odd number of arrivals the
      last one is the only client left waiting. */
  method ArrivalOrder(arrivals: seq<ClientId>) returns (waiting: seq<ClientId>, rooms: map<ClientId, ClientId>)
    requires NoDuplicates(arrivals)
    ensures waiting == if |arrivals| % 2 == 1 then [arrivals[|arrivals| - 1]] else []
    ensures PairedUpTo(arrivals, rooms, |arrivals| / 2)
    ensures forall c :: c in rooms ==> c in arrivals
  {
    var server := new RandomServer();
    for n := 0 to |arrivals|
      invariant server.Valid()
      invariant server.waiting == if n % 2 == 1 then [arrivals[n - 1]] else []
      invariant PairedUpTo(arrivals, server.rooms, n / 2)
      invariant forall c :: c in server.connected ==> c in arrivals[..n]
    {
      NotInPrefix(arrivals, n);
      if n % 2 == 1 {
        PairNextArrivals(arrivals, server.rooms, n / 2);
      }
      server.OnClientConnected(arrivals[n]);
      assert arrivals[..n + 1] == arrivals[..n] + [arrivals[n]];
    }
    assert arrivals[..|arrivals|] == arrivals;
    waiting, rooms := server.WaitingClients(), server.Rooms();
  }

  /** A lone client is put in the queue: the server shows one waiting client, and the
      client has been told `WaitingForPartner`. */
  method NewClientGetsPutInQueue(client: ClientId) returns (waitingCount: nat, told: seq<Delivery>)
    ensures waitingCount == 1
    ensures told == [Delivery(client, ServerMessage(WaitingForPartner))]
  {
    var server := new RandomServer();
    server.OnClientConnected(client);
    waitingCount := |server.WaitingClients()|;
    told := server.outbox;
  }

  /** Two clients get matched: nobody is left waiting and the room is two entries. */
  method ClientsGetMatched(client1: ClientId, client2: ClientId) returns (waitingCount: nat, roomCount: nat)
    requires client1 != client2
    ensures waitingCount == 0 && roomCount == 2
  {
    var server := new RandomServer();
    server.OnClientConnected(client1);
    server.OnClientConnected(client2);
    waitingCount := |server.WaitingClients()|;
    assert server.Rooms().Keys == {client1, client2};
    roomCount := |server.Rooms()|;
  }

  /** Two matched clients each send a message: each message reaches the other client,
      unchanged, and no one else. */
  method ClientsExchangeMessages(client1: ClientId, client2: ClientId, text1: string, text2: string)
    returns (relayed: seq<Delivery>)
    requires client1 != client2 && text1 != "" && text2 != ""
    ensures relayed == [Delivery(client2, ServerMessage(PartnerMessage, Some(text1))),
                        Delivery(client1, ServerMessage(PartnerMessage, Some(text2)))]
  {
    var server := new RandomServer();
    server.OnClientConnected(client1);
    server.OnClientConnected(client2);
    var before := |server.outbox|;
    server.OnClientMessage(client1, ServerMessage(PartnerMessage, Some(text1)));
    server.OnClientMessage(client2, ServerMessage(PartnerMessage, Some(text2)));
    relayed := server.outbox[before..];
  }

  /** A paired client leaves: its partner is told `PartnerDisconnected` and then
      `WaitingForPartner`, waits again, and no room is left. */
  method PartnerRequeuedAfterDisconnect(client1: ClientId, client2: ClientId)
    returns (waiting: seq<ClientId>, rooms: map<ClientId, ClientId>, notices: seq<Delivery>)
    requires client1 != client2
    ensures waiting == [client2] && rooms == map[]
    ensures notices == [Delivery(client2, ServerMessage(PartnerDisconnected)),
                        Delivery(client2, ServerMessage(WaitingForPartner))]
  {
    var server := new RandomServer();
    server.OnClientConnected(client1);
    server.OnClientConnected(client2);
    var before := |server.outbox|;
    server.OnClientDisconnected(client1);
    waiting, rooms, notices := server.waiting, server.rooms, server.outbox[before..];
  }

  /** A waiting client leaves before anyone else arrives: the next arrival waits in its
      turn instead of being paired with the departed client. */
  method DepartedWaiterLeavesQueue(client1: ClientId, client2: ClientId)
    returns (waiting: seq<ClientId>, rooms: map<ClientId, ClientId>, toClient2: seq<Delivery>)
    requires client1 != client2
    ensures waiting == [client2] && rooms == map[]
    ensures toClient2 == [Delivery(client2, ServerMessage(WaitingForPartner))]
  {
    var server := new RandomServer();
    server.OnClientConnected(client1);
    server.OnClientDisconnected(client1);
    var before := |server.outbox|;
    server.OnClientConnected(client2);
    waiting, rooms, toClient2 := server.waiting, server.rooms, server.outbox[before..];
  }
}
