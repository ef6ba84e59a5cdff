# RandomChat matchmaking and partner client, in Dafny

RandomChat pairs anonymous TCP clients two by two and relays chat text between the two
members of a room. This project models:

- the matchmaking server (`RandomChat/RandomServer.cs`) as the class
  `Matchmaking.RandomServer`. Its fields are the FIFO waiting list, the partner map
  (one room is two reciprocal entries), the set of ids the transport has registered, and
  the log of `SendAsync` calls in order;
- the first revision of that server (`RandomChat/Class1.cs`) as the class
  `EarlyRevision.RandomServer`. It is kept separate because its disconnect handling
  differs (see Findings);
- the chat client (`RandomChat/RandomClient.cs`) as the class `PartnerClient.RandomClient`.
  Its fields are the `HasPartner` flag, the four handler lists, the frames it transmits,
  and the log of handler runs. The client in `RandomChat/Class1.cs` (lines 132-239) has the
  same dispatch logic; it differs in its JSON library (System.Text.Json at line 190, where
  `RandomClient.cs` uses Newtonsoft at line 64) and in logging, both left out, and in its
  `OnServerDisconnected`, which throws (`EarlyRevision.OnServerDisconnected`);
- the message structs: the five-kind one (`RandomChat/Models/ServerMessage.cs`, module
  `Messages`) used by the server, and the four-kind one without `PartnerTyping`
  (`RandomChat/ServerMessage.cs`, module `LegacyMessages`) used by the client and the
  first revision.

A `Guid` is a `nat` (`ClientId`); only equality is used. The transport is modelled through
the registry it keeps (`Tcp/Server.cs` registers an id before the connect handlers run, at
line 83, and drops it after the disconnect handlers, at line 148). Its `SendAsync` throws on
an id it no longer knows (line 160). In the current server every send goes to a registered
id (the `requires` of `Send`), so no handler is ever cut short. In the first revision
`Send` reports the failure, and the handler stops there, as the exception would.

Handlers are ids. Which of them throw is a parameter. The client's per-handler
`try`/`catch` is modelled as: a throwing handler is logged, and the next one still runs.

The server invariant `Consistent` says:

- at most one client waits;
- nobody both waits and has a room;
- rooms are symmetric;
- every registered client either waits or has a room.

Every handler of the current server keeps it.

Two details of the disconnect and relay paths, as the code has them:
`RandomServer.cs` (lines 88-99) sends `PartnerDisconnected` before removing either room
entry, then removes the partner's entry, re-enqueues the partner (and so may pair it at
once), and only then removes the leaver's entry; and line 56 drops empty text as well as
null text, where the first revision (`Class1.cs`, line 66) relays empty text.

## Model

| member | source | states |
|---|---|---|
| Lists.RemoveFirst | RandomChat/RandomServer.cs:85 | `List.Remove`: an absent element leaves the list as it is; a present one makes it one shorter |
| Lists.FirstIndex | RandomChat/RandomServer.cs:85 | the position found holds the element and no earlier position does |
| Lists.RemoveFirstSplice | RandomChat/RandomServer.cs:85 | `List.Remove` cuts out exactly the first occurrence and keeps the elements before and after it in order |
| Lists.RemoveFirstMultiset | RandomChat/RandomServer.cs:85 | `List.Remove` takes away exactly one occurrence of the element and keeps every other one |
| Lists.RemoveFirstNoDuplicates | RandomChat/RandomServer.cs:85 | on a list without duplicates, `Remove` leaves exactly the other elements, still without duplicates |
| Lists.RemoveFirstTwo | RandomChat/RandomServer.cs:125-130 | removing the first element and then the (old) second leaves the list from its third element on |
| Messages.Ordinal | RandomChat/Models/ServerMessage.cs:16-23 | every kind has one of five positions |
| Messages.FromOrdinal | RandomChat/Models/ServerMessage.cs:16-23 | a position names a kind exactly when it is below five |
| Messages.KindsAreOrdinals | RandomChat/Models/ServerMessage.cs:16-23 | kinds and positions 0-4 correspond one to one, in declaration order |
| Messages.ConstructorRoundTrip | RandomChat/Models/ServerMessage.cs:7-14 | `Type` and `Data` return what the constructor was given; `Data` defaults to null |
| LegacyMessages.Ordinal | RandomChat/ServerMessage.cs:14-20 | every kind has one of four positions |
| LegacyMessages.FromOrdinal | RandomChat/ServerMessage.cs:14-20 | a position names a kind exactly when it is below four |
| LegacyMessages.KindsAreOrdinals | RandomChat/ServerMessage.cs:14-20 | the four kinds (no `PartnerTyping`) and positions 0-3 correspond one to one |
| LegacyMessages.ConstructorRoundTrip | RandomChat/ServerMessage.cs:5-12 | `Type` and `Data` return what the constructor was given; `Data` defaults to null |
| Observers.InvocationsInOrder | RandomChat/RandomClient.cs:73-77 | one pass runs every registered handler exactly once, in registration order, with the same argument |
| Observers.ExceptionsDoNotSkipHandlers | RandomChat/RandomClient.cs:98-102 | which handlers throw changes nothing about which handlers run, or their order |
| Observers.Fire | RandomChat/RandomClient.cs:108-112 | the `foreach` with its `try`/`catch` logs exactly the pass `Invocations` describes |
| Matchmaking.PairKeepsSymmetry | RandomChat/RandomServer.cs:139-140 | adding both entries for two distinct unpaired clients keeps rooms symmetric |
| Matchmaking.UnpairKeepsSymmetry | RandomChat/RandomServer.cs:88-99 | removing both entries of a room keeps rooms symmetric |
| Matchmaking.DisconnectUnpairedKeepsConsistency | RandomChat/RandomServer.cs:82-100 | a leaver with no room leaves a consistent state once it is off the queue and unregistered |
| Matchmaking.DisconnectPairedKeepsConsistency | RandomChat/RandomServer.cs:82-100 | a paired leaver while nobody waits: the room goes and the partner waits alone, consistently |
| Matchmaking.DisconnectRepairsKeepsConsistency | RandomChat/RandomServer.cs:82-100 | a paired leaver while someone waits: the partner is paired with the waiter, consistently |
| Matchmaking.RandomServer.constructor | RandomChat/RandomServer.cs:15-16 | a new server has no waiters, no rooms, no clients and has sent nothing; it is consistent |
| Matchmaking.RandomServer.WaitingClients | RandomChat/RandomServer.cs:24 | the waiting view holds at most one registered client, with no room and no duplicate |
| Matchmaking.RandomServer.Rooms | RandomChat/RandomServer.cs:25 | the rooms view is symmetric and every key is registered and not waiting |
| Matchmaking.RandomServer.Send | Tcp/Server.cs:155-164 | appends exactly one delivery; it is only ever called for a registered id, so the throw at line 160 is never reached |
| Matchmaking.RandomServer.OnClientConnected | RandomChat/RandomServer.cs:43-46 | a newcomer is told `WaitingForPartner`; if someone waited, both are paired and told `PartnerConnected`, the waiter first; consistency is kept |
| Matchmaking.RandomServer.OnClientMessage | RandomChat/RandomServer.cs:48-80 | non-empty text from a paired client goes unchanged to its partner only; typing goes to the partner; all else is dropped; queue and rooms never change |
| Matchmaking.RandomServer.OnClientDisconnected | RandomChat/RandomServer.cs:82-100 | the leaver is off the queue and has no room; its partner is told `PartnerDisconnected` then `WaitingForPartner` and re-queued (or re-paired); consistency is kept |
| Matchmaking.RandomServer.ReleasePartner | RandomChat/RandomServer.cs:88-96 | the partner is told `PartnerDisconnected`, loses its entry, and is enqueued, with the exact resulting state in both queue cases |
| Matchmaking.RandomServer.EnqueueClient | RandomChat/RandomServer.cs:102-109 | the client is appended and told `WaitingForPartner`; with two in the queue, the two are paired |
| Matchmaking.RandomServer.TryMatchMaking | RandomChat/RandomServer.cs:111-133 | with fewer than two waiting nothing changes; otherwise the two oldest leave the queue and are paired |
| Matchmaking.RandomServer.MatchClients | RandomChat/RandomServer.cs:135-144 | both room entries are added and the first, then the second, is told `PartnerConnected` |
| Matchmaking.PairNextArrivals | RandomChat/RandomServer.cs:125-140 | pairing the next two arrivals extends the rooms built so far by exactly their room |
| Matchmaking.ArrivalOrder | RandomChat/RandomServer.cs:102-144 | with nobody leaving, arrivals 1 and 2 share a room, then 3 and 4, and so on; an odd last arrival waits alone |
| Matchmaking.NewClientGetsPutInQueue | Tests/RandomChat.Tests/Tests.cs:22-40 | a lone client makes one waiting client and is told `WaitingForPartner` |
| Matchmaking.ClientsGetMatched | Tests/RandomChat.Tests/UnitTest1.cs:78-79 | two clients leave nobody waiting and a room of two entries |
| Matchmaking.ClientsExchangeMessages | Tests/RandomChat.Tests/Tests.cs:61-76 | two matched clients each receive exactly the other's text |
| Matchmaking.PartnerRequeuedAfterDisconnect | RandomChat/RandomServer.cs:82-100 | after a paired client leaves, its partner is told `PartnerDisconnected` then `WaitingForPartner`, waits, and no room is left |
| Matchmaking.DepartedWaiterLeavesQueue | RandomChat/RandomServer.cs:84-85 | a waiter that leaves is gone from the queue; the next arrival waits in turn |
| PartnerClient.RandomClient.constructor | RandomChat/RandomClient.cs:11-16 | a new client has no partner and no handlers |
| PartnerClient.RandomClient.SendAsync | RandomChat/RandomClient.cs:33-42 | without a partner nothing is sent; with one, exactly one `PartnerMessage` carrying the text |
| PartnerClient.RandomClient.OnPartnerConnected | RandomChat/RandomClient.cs:44-45 | the handler is appended to its own list only |
| PartnerClient.RandomClient.OnPartnerDisconnected | RandomChat/RandomClient.cs:47-48 | the handler is appended to its own list only |
| PartnerClient.RandomClient.OnPartnerMessage | RandomChat/RandomClient.cs:50-51 | the handler is appended to its own list only |
| PartnerClient.RandomClient.OnWaitingForPartner | RandomChat/RandomClient.cs:53-54 | the handler is appended to its own list only |
| PartnerClient.RandomClient.OnServerResponded | RandomChat/RandomClient.cs:62-115 | `PartnerConnected` sets `HasPartner` before its handlers run; `PartnerDisconnected`/`WaitingForPartner` clear it; text goes to every message handler; a null message does nothing |
| PartnerClient.RandomClient.OnServerDisconnected | RandomChat/RandomClient.cs:117-120 | completes normally |
| PartnerClient.KindNumberingAgainstServer | RandomChat/ServerMessage.cs:14-20 | the first three kind numbers agree with the server's; the server's `PartnerTyping` number is the client's `PartnerMessage`, and the server's `PartnerMessage` number names no client kind |
| PartnerClient.SendBeforePartnerConnects | RandomChat/RandomClient.cs:35-39 | a client told only `WaitingForPartner` transmits nothing |
| PartnerClient.ConnectedThenMessaged | RandomChat/RandomClient.cs:70-103 | a connected handler sees `HasPartner` set, so the reply it sends is transmitted; every message handler gets the text even after one throws |
| EarlyRevision.LookupAfterRemovalFindsNothing | RandomChat/Class1.cs:86-89 | looked up after its own removal, the leaver never yields a partner |
| EarlyRevision.ConnectedPartnerIsNeverReleased | RandomChat/Class1.cs:89 | a partner that is still connected is never selected by the test |
| EarlyRevision.RandomServer.constructor | RandomChat/Class1.cs:31-32 | a new server is empty and satisfies the revision's invariant |
| EarlyRevision.RandomServer.WaitingClients | RandomChat/Class1.cs:40 | at most one client waits, and it is in no room |
| EarlyRevision.RandomServer.Rooms | RandomChat/Class1.cs:41 | nobody is their own partner; an entry whose partner has an entry is answered by it |
| EarlyRevision.RandomServer.Send | Tcp/Server.cs:155-164 | delivered exactly when the id is registered; otherwise nothing is written |
| EarlyRevision.RandomServer.OnClientConnected | RandomChat/Class1.cs:54-57 | a newcomer waits or is paired with the queued client; when that client has left, the newcomer is never told `PartnerConnected` |
| EarlyRevision.RandomServer.OnClientMessage | RandomChat/Class1.cs:59-81 | text (empty included) from a client with an entry reaches the recorded partner if still registered; everything else is dropped |
| EarlyRevision.RandomServer.OnClientDisconnected | RandomChat/Class1.cs:83-98 | only the leaver's own entry goes; queue, partner entry and messages are untouched |
| EarlyRevision.RandomServer.EnqueueClient | RandomChat/Class1.cs:100-107 | the client is queued and told `WaitingForPartner`; two queued are paired |
| EarlyRevision.RandomServer.TryMatchMaking | RandomChat/Class1.cs:109-124 | the two oldest are dequeued and paired; a failed first notice ends the handler before the second |
| EarlyRevision.OnServerDisconnected | RandomChat/Class1.cs:243-246 | the first client's disconnect callback faults with `NotImplementedException` |
| EarlyRevision.DisconnectStrandsPartner | RandomChat/Class1.cs:83-98 | a left-behind partner is told nothing, keeps an entry naming the leaver, is not re-queued, and its messages go nowhere |
| EarlyRevision.DepartedWaiterStaysQueued | RandomChat/Class1.cs:83-98 | a departed waiter stays queued; the next arrival is paired with it and never told `PartnerConnected` |

## Left out

- JSON (de)serialization and the transport's framing are not modelled. Messages are values, and each read is taken to be exactly one message.
- Enum values outside the declared kinds are not modelled. A C# enum can hold any integer, and no `switch` here has a default case, so such a message would be ignored. It cannot be written in the model.
- Concurrency and interleaving are not modelled. Each connection runs its handlers on its own task, and the server's collections are not synchronised. The model runs each handler to completion, one at a time.
- `Matchmaking.RandomServer.TryMatchMaking`: the `Task.Delay(500)` at `RandomServer.cs:113` is left out. It only matters for interleaving, so pairing is modelled as immediate.
- Logging is not modelled, and neither are `StartAsync`/`StopAsync`, `Port` or the client's `ConnectAsync` and `OnServerConnected`. These only wire handlers to the transport or log.
- Handlers are opaque: re-entrant calls from a handler into the client are not modelled. The test scenario where a connected handler sends a message is told as a sequence of calls.
- The transport itself (`Tcp/Server.cs`) is not part of this model. Only its registry and its `SendAsync` are modelled, as the `connected` field and the two `Send` methods.
- `RandomChat/Abstractions/IRandomClient.cs` declares a message history, typing state and `MarkAsTypingAsync`; these files hold no implementation of them, and they are not modelled.
- `EarlyRevision.PartnerToRelease` models `_server.IsConnected(partner)` (`Class1.cs`, line 89) as membership of the registry only; the extra `TcpClient.Connected` test at `Tcp/Server.cs`, lines 177-178, is dropped. This changes nothing, because the lookup on that line already fails.
- The wire numbering of kinds is not modelled as a decoding step. `PartnerClient.KindNumberingAgainstServer` states what numeric enum encoding (the default of the serializer at `Tcp/Server.cs`, line 161) would mean between the five-kind server and the four-kind client: the server's `PartnerTyping` has the number of the client's `PartnerMessage`, and the server's `PartnerMessage` has a number that names no client kind. Whether those two files are built into one program is outside these files, so no finding is claimed.

## Findings

| source | as written | input that shows it | evidently intended | confidence | as-written member | corrected member |
|---|---|---|---|---|---|---|
| RandomChat/Class1.cs:86-89 | the leaver's entry is removed before its partner is looked up under the leaver's id, and the test asks for a partner that is *not* connected, so the partner block never runs | clients 1 and 2 connect and are paired, then 1 disconnects | the partner is told `PartnerDisconnected`, loses its entry and is re-queued, as `RandomServer.cs:82-100` later does | high, not executed | EarlyRevision.DisconnectStrandsPartner | Matchmaking.PartnerRequeuedAfterDisconnect |
| RandomChat/Class1.cs:83-98 | disconnecting does not take the leaver off the queue | client 1 connects and waits, disconnects, then client 2 connects | the leaver leaves the queue, and the next arrival waits, as `RandomServer.cs:85` later does | high, not executed | EarlyRevision.DepartedWaiterStaysQueued | Matchmaking.DepartedWaiterLeavesQueue |
