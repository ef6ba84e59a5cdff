/** The chat client of the current revision (RandomChat/RandomClient.cs): one
    `HasPartner` flag, four handler lists, and a dispatcher for server messages. The
    transport is a log of the frames handed to it; handlers are observer ids whose runs
    are logged. */
module PartnerClient {

  import opened Wrappers
  import opened LegacyMessages
  import opened Observers
  import Server = Messages

  class RandomClient {

    /** `HasPartner`. */
    var hasPartner: bool
    /** `_partnerConnectedHandlers`, in registration order. */
    var partnerConnectedHandlers: seq<HandlerId>
    /** `_partnerDisconnectedHandlers`. */
    var partnerDisconnectedHandlers: seq<HandlerId>
    /** `_partnerMessageHandlers`. */
    var partnerMessageHandlers: seq<HandlerId>
    /** `_waitingForPartnerHandlers`. */
    var waitingForPartnerHandlers: seq<HandlerId>
    /** Every frame given to the transport's `SendAsync`, in order. */
    var sent: seq<ServerMessage>
    /** Every handler run, in order. */
    var fired: seq<Invocation>

    /** A new client has no partner, no handlers, and has sent and run nothing. */
    constructor ()
      ensures !hasPartner
      ensures partnerConnectedHandlers == [] && partnerDisconnectedHandlers == []
      ensures partnerMessageHandlers == [] && waitingForPartnerHandlers == []
      ensures sent == [] && fired == []
    {
      hasPartner := false;
      partnerConnectedHandlers, partnerDisconnectedHandlers := [], [];
      partnerMessageHandlers, waitingForPartnerHandlers := [], [];
      sent, fired := [], [];
    }

    /** `SendAsync`: without a partner nothing is transmitted (a warning is logged);
        with one, exactly one `PartnerMessage` carrying the text. */
    method SendAsync(message: string)
      modifies this`sent
      ensures !hasPartner ==> sent == old(sent)
      ensures hasPartner ==> sent == old(sent) + [ServerMessage(PartnerMessage, Some(message))]
    {
      if !hasPartner {
        return;
      }
      sent := sent + [ServerMessage(PartnerMessage, Some(message))];
    }

    /** `OnPartnerConnected`: appends to that list only. */
    method OnPartnerConnected(handler: HandlerId)
      modifies this`partnerConnectedHandlers
      ensures partnerConnectedHandlers == old(partnerConnectedHandlers) + [handler]
    {
      partnerConnectedHandlers := partnerConnectedHandlers + [handler];
    }

    /** `OnPartnerDisconnected`: appends to that list only. */
    method OnPartnerDisconnected(handler: HandlerId)
      modifies this`partnerDisconnectedHandlers
      ensures partnerDisconnectedHandlers == old(partnerDisconnectedHandlers) + [handler]
    {
      partnerDisconnectedHandlers := partnerDisconnectedHandlers + [handler];
    }

    /** `OnPartnerMessage`: appends to that list only. */
    method OnPartnerMessage(handler: HandlerId)
      modifies this`partnerMessageHandlers
      ensures partnerMessageHandlers == old(partnerMessageHandlers) + [handler]
    {
      partnerMessageHandlers := partnerMessageHandlers + [handler];
    }

    /** `OnWaitingForPartner`: appends to that list only. */
    method OnWaitingForPartner(handler: HandlerId)
      modifies this`waitingForPartnerHandlers
      ensures waitingForPartnerHandlers == old(waitingForPartnerHandlers) + [handler]
    {
      waitingForPartnerHandlers := waitingForPartnerHandlers + [handler];
    }

    /** `OnServerResponded`: `PartnerConnected` sets `HasPartner` before its handlers run;
        `PartnerDisconnected` and `WaitingForPartner` clear it and run only their own
        handlers; a `PartnerMessage` with text hands exactly that text to every message
        handler and leaves the flag alone, and one without text does nothing. Handlers
        that throw (`throwing`) are logged and the others still run, in order. */
    method OnServerResponded(message: ServerMessage, throwing: set<HandlerId>)
      modifies this`hasPartner, this`fired
      ensures message.Type == PartnerConnected ==>
        && hasPartner
        && fired == old(fired) + Invocations(Callback.OnPartnerConnected, partnerConnectedHandlers, None, true, throwing)
      ensures message.Type == PartnerDisconnected ==>
        && !hasPartner
        && fired == old(fired) + Invocations(Callback.OnPartnerDisconnected, partnerDisconnectedHandlers, None, false, throwing)
      ensures message.Type == WaitingForPartner ==>
        && !hasPartner
        && fired == old(fired) + Invocations(Callback.OnWaitingForPartner, waitingForPartnerHandlers, None, false, throwing)
      ensures message.Type == PartnerMessage && message.Data == None ==>
        hasPartner == old(hasPartner) && fired == old(fired)
      ensures message.Type == PartnerMessage && message.Data != None ==>
        && hasPartner == old(hasPartner)
        && fired == old(fired) + Invocations(Callback.OnPartnerMessage, partnerMessageHandlers, message.Data, hasPartner, throwing)
    {
      match message.Type {
        case PartnerConnected =>
          hasPartner := true;
          var log := Fire(Callback.OnPartnerConnected, partnerConnectedHandlers, None, hasPartner, throwing);
          fired := fired + log;
        case PartnerDisconnected =>
          hasPartner := false;
          var log := Fire(Callback.OnPartnerDisconnected, partnerDisconnectedHandlers, None, hasPartner, throwing);
          fired := fired + log;
        case PartnerMessage =>
          if message.Data == None {
            return;   // logged as a warning: the partner message is null
          }
          var log := Fire(Callback.OnPartnerMessage, partnerMessageHandlers, message.Data, hasPartner, throwing);
          fired := fired + log;
        case WaitingForPartner =>
          hasPartner := false;
          var log := Fire(Callback.OnWaitingForPartner, waitingForPartnerHandlers, None, hasPartner, throwing);
          fired := fired + log;
      }
    }

    /** `OnServerDisconnected`: completes without touching anything. */
    method OnServerDisconnected() returns (result: TaskResult)
      ensures result == Completed
    {
      result := Completed;
    }
  }

  /** Kinds are enum values, numbered in declaration order. The server's five kinds and
      this client's four agree on the first three; the server's `PartnerTyping` has the
      number of this client's `PartnerMessage`, and the server's `PartnerMessage` has a
      number that names no kind here. */
  lemma KindNumberingAgainstServer()
    ensures FromOrdinal(Server.Ordinal(Server.WaitingForPartner)) == Some(WaitingForPartner)
    ensures FromOrdinal(Server.Ordinal(Server.PartnerConnected)) == Some(PartnerConnected)
    ensures FromOrdinal(Server.Ordinal(Server.PartnerDisconnected)) == Some(PartnerDisconnected)
    ensures FromOrdinal(Server.Ordinal(Server.PartnerTyping)) == Some(PartnerMessage)
    ensures FromOrdinal(Server.Ordinal(Server.PartnerMessage)) == None
  {
  }

  /** A client that has only ever been told `WaitingForPartner` cannot send: the message
      is not transmitted. */
  method SendBeforePartnerConnects(text: string) returns (sent: seq<ServerMessage>)
    ensures sent == []
  {
    var client := new RandomClient();
    client.OnServerResponded(ServerMessage(WaitingForPartner), {});
    client.SendAsync(text);
    sent := client.sent;
  }

  /** A handler registered for `PartnerConnected` that sends a message (as the chat tests
      do) finds `HasPartner` already set, so its message is transmitted; every message
      handler receives the partner's text, even after an earlier handler threw. */
  method ConnectedThenMessaged(
    sender: HandlerId, first: HandlerId, second: HandlerId, reply: string, text: string)
    returns (sent: seq<ServerMessage>, fired: seq<Invocation>)
    requires first != second
    ensures sent == [ServerMessage(PartnerMessage, Some(reply))]
    ensures fired == [Invocation(Callback.OnPartnerConnected, sender, None, true, false),
                      Invocation(Callback.OnPartnerMessage, first, Some(text), true, true),
                      Invocation(Callback.OnPartnerMessage, second, Some(text), true, false)]
  {
    var client := new RandomClient();
    client.OnPartnerConnected(sender);
    client.OnPartnerMessage(first);
    client.OnPartnerMessage(second);
    client.OnServerResponded(ServerMessage(PartnerConnected), {});
    InvocationsInOrder(Callback.OnPartnerConnected, [sender], None, true, {});
    client.SendAsync(reply);   // what the `sender` handler does
    client.OnServerResponded(ServerMessage(PartnerMessage, Some(text)), {first});
    InvocationsInOrder(Callback.OnPartnerMessage, [first, second], Some(text), true, {first});
    sent, fired := client.sent, client.fired;
  }
}
