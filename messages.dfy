/** The wire message of the current revision: a kind and optional text
    (RandomChat/Models/ServerMessage.cs). */
module Messages {

  import opened Wrappers

  /** The five kinds, in declaration order. */
  datatype MessageType =
    | WaitingForPartner
    | PartnerConnected
    | PartnerDisconnected
    | PartnerTyping
    | PartnerMessage

  const KindCount: nat := 5

  /** An immutable message; omitting `Data` leaves it null. */
  datatype ServerMessage = ServerMessage(Type: MessageType, Data: Option<string> := None)

  /** The integer a kind stands for: its position in the declaration. */
  function Ordinal(t: MessageType): (n: nat)
    ensures n < KindCount
  {
    match t
    case WaitingForPartner => 0
    case PartnerConnected => 1
    case PartnerDisconnected => 2
    case PartnerTyping => 3
    case PartnerMessage => 4
  }

  /** The declared kind with ordinal `n`, if any. */
  function FromOrdinal(n: int): (t: Option<MessageType>)
    ensures t.Some? <==> 0 <= n < KindCount
  {
    if n == 0 then Some(WaitingForPartner)
    else if n == 1 then Some(PartnerConnected)
    else if n == 2 then Some(PartnerDisconnected)
    else if n == 3 then Some(PartnerTyping)
    else if n == 4 then Some(PartnerMessage)
    else None
  }

  /** There are exactly `KindCount` kinds: `Ordinal` and `FromOrdinal` are inverse
      bijections between the kinds and `0 .. KindCount - 1`. */
  lemma KindsAreOrdinals(t: MessageType, n: int)
    ensures FromOrdinal(Ordinal(t)) == Some(t)
    ensures 0 <= n < KindCount ==> Ordinal(FromOrdinal(n).value) == n
  {
  }

  /** The getters give back exactly what the constructor was passed, and the data
      defaults to null. */
  lemma ConstructorRoundTrip(t: MessageType, data: Option<string>)
    ensures ServerMessage(t, data).Type == t && ServerMessage(t, data).Data == data
    ensures ServerMessage(t).Type == t && ServerMessage(t).Data == None
  {
  }
}
