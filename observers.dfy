/** The client's handler lists: callbacks registered per event and invoked in
    registration order, each inside its own try/catch (RandomChat/RandomClient.cs:73-77,
    83-87, 98-102, 108-112; RandomChat/Class1.cs:197-201, 207-211, 222-226, 232-236).
    A handler is an observer id; running it is recorded as an `Invocation` instead of
    executing arbitrary code, and which handlers throw is a parameter. */
module Observers {

  import opened Wrappers

  /** Stands for one registered delegate. */
  type HandlerId = nat

  /** The four handler lists of the client. */
  datatype Callback =
    | OnPartnerConnected
    | OnPartnerDisconnected
    | OnPartnerMessage
    | OnWaitingForPartner

  /** "Handler `handler` of list `callback` ran with `argument` while the client's
      `HasPartner` read `hasPartner`; it threw iff `threw`." */
  datatype Invocation = Invocation(
    callback: Callback,
    handler: HandlerId,
    argument: Option<string>,
    hasPartner: bool,
    threw: bool)

  /** How an awaited task ends: normally, or with an exception. */
  datatype TaskResult = Completed | Faulted(exception: string)

  /** The invocations one pass over `handlers` produces: every handler once, in order. */
  function Invocations(
    callback: Callback, handlers: seq<HandlerId>, argument: Option<string>,
    hasPartner: bool, throwing: set<HandlerId>): seq<Invocation>
    decreases |handlers|
  {
    if handlers == [] then []
    else
      var last := handlers[|handlers| - 1];
      Invocations(callback, handlers[..|handlers| - 1], argument, hasPartner, throwing)
        + [Invocation(callback, last, argument, hasPartner, last in throwing)]
  }

  /** The k-th invocation is the k-th registered handler, with the shared argument;
      a handler that throws does not stop those after it. */
  lemma {:induction false} InvocationsInOrder(
    callback: Callback, handlers: seq<HandlerId>, argument: Option<string>,
    hasPartner: bool, throwing: set<HandlerId>)
    ensures |Invocations(callback, handlers, argument, hasPartner, throwing)| == |handlers|
    ensures forall k :: 0 <= k < |handlers| ==>
      Invocations(callback, handlers, argument, hasPartner, throwing)[k]
        == Invocation(callback, handlers[k], argument, hasPartner, handlers[k] in throwing)
    decreases |handlers|
  {
    if handlers != [] {
      var init := handlers[..|handlers| - 1];
      InvocationsInOrder(callback, init, argument, hasPartner, throwing);
      forall k | 0 <= k < |handlers|
        ensures Invocations(callback, handlers, argument, hasPartner, throwing)[k]
          == Invocation(callback, handlers[k], argument, hasPartner, handlers[k] in throwing)
      {
        if k < |handlers| - 1 {
          assert init[k] == handlers[k];
        }
      }
    }
  }

  /** Which handlers run, and in which order, does not depend on which of them throw. */
  lemma ExceptionsDoNotSkipHandlers(
    callback: Callback, handlers: seq<HandlerId>, argument: Option<string>,
    hasPartner: bool, throwing1: set<HandlerId>, throwing2: set<HandlerId>)
    ensures |Invocations(callback, handlers, argument, hasPartner, throwing1)| == |handlers|
    ensures |Invocations(callback, handlers, argument, hasPartner, throwing2)| == |handlers|
    ensures forall k :: 0 <= k < |handlers| ==>
      Invocations(callback, handlers, argument, hasPartner, throwing1)[k].handler
        == Invocations(callback, handlers, argument, hasPartner, throwing2)[k].handler
  {
    InvocationsInOrder(callback, handlers, argument, hasPartner, throwing1);
    InvocationsInOrder(callback, handlers, argument, hasPartner, throwing2);
  }

  /** The `foreach` over a handler list: each handler is awaited inside a try/catch,
      so an exception is logged and the loop goes on with the next handler. */
  method Fire(
    callback: Callback, handlers: seq<HandlerId>, argument: Option<string>,
    hasPartner: bool, throwing: set<HandlerId>) returns (log: seq<Invocation>)
    ensures log == Invocations(callback, handlers, argument, hasPartner, throwing)
  {
    log := [];
    for i := 0 to |handlers|
      invariant log == Invocations(callback, handlers[..i], argument, hasPartner, throwing)
    {
      var handler := handlers[i];
      var threw := handler in throwing;
      log := log + [Invocation(callback, handler, argument, hasPartner, threw)];
      assert handlers[..i + 1][..i] == handlers[..i];
    }
    assert handlers[..|handlers|] == handlers;
  }
}
