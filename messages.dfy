// Actor messages: an immutable record of sender, destination, correlation key
// and body.  Every "with" operation builds a new message that differs from the
// receiver in exactly one field.

module Messages {

  /** An actor address; UNKNOWN_ADDRESS is the sender of a message created without one. */
  datatype ActorAddress = UnknownAddress | Urn(urn: string)

  /** The correlation key of a message; UNCORRELATED until a key is set. */
  datatype CorrelationKey = Uncorrelated | Correlation(key: string)

  datatype Message<T> = Message(sender: ActorAddress, destination: ActorAddress,
                                correlationKey: CorrelationKey, body: T)
  {
    /** A copy with another sender. */
    function WithSender(address: ActorAddress): (r: Message<T>)
      ensures r.sender == address
      ensures r.destination == destination && r.correlationKey == correlationKey && r.body == body
    {
      this.(sender := address)
    }

    /** A copy with another destination. */
    function WithDestination(address: ActorAddress): (r: Message<T>)
      ensures r.destination == address
      ensures r.sender == sender && r.correlationKey == correlationKey && r.body == body
    {
      this.(destination := address)
    }

    /** A copy whose body is converted by `f`; the envelope is kept. */
    function Map<U>(f: T -> U): (r: Message<U>)
      ensures r.body == f(body)
      ensures r.sender == sender && r.destination == destination && r.correlationKey == correlationKey
    {
      Message(sender, destination, correlationKey, f(body))
    }

    /** Sets the key of an uncorrelated message; a correlated message keeps its key. */
    function CorrelateBy(k: CorrelationKey): (r: Message<T>)
      ensures correlationKey == Uncorrelated ==> r.correlationKey == k
      ensures correlationKey != Uncorrelated ==> r == this
      ensures r.sender == sender && r.destination == destination && r.body == body
    {
      if correlationKey == Uncorrelated then this.(correlationKey := k) else this
    }

    /** A reply to the sender: the addresses are swapped and the key is kept. */
    function ReplyWith<U>(reply: U): (r: Message<U>)
      ensures r.sender == destination && r.destination == sender
      ensures r.correlationKey == correlationKey && r.body == reply
    {
      Message(destination, sender, correlationKey, reply)
    }

    /** A reply sent to an explicit address, from this message's destination. */
    function ReplyTo<U>(address: ActorAddress, reply: U): (r: Message<U>)
      ensures r.sender == destination && r.destination == address
      ensures r.correlationKey == correlationKey && r.body == reply
    {
      Message(destination, address, correlationKey, reply)
    }
  }

  /** A message from the unknown sender, not yet correlated. */
  function CreateFor<T>(destination: ActorAddress, body: T): (r: Message<T>)
    ensures r.sender == UnknownAddress && r.correlationKey == Uncorrelated
    ensures r.destination == destination && r.body == body
  {
    Message(UnknownAddress, destination, Uncorrelated, body)
  }

  /** A message from a given sender, not yet correlated. */
  function CreateFrom<T>(sender: ActorAddress, destination: ActorAddress, body: T): (r: Message<T>)
    ensures r.sender == sender && r.correlationKey == Uncorrelated
    ensures r.destination == destination && r.body == body
  {
    Message(sender, destination, Uncorrelated, body)
  }

  /** The first key set on a message wins: a second `CorrelateBy` changes nothing. */
  lemma CorrelationFirstWins<T>(m: Message<T>, first: CorrelationKey, second: CorrelationKey)
    requires m.correlationKey == Uncorrelated && first != Uncorrelated
    ensures m.CorrelateBy(first).CorrelateBy(second) == m.CorrelateBy(first)
    ensures m.CorrelateBy(first).CorrelateBy(second).correlationKey == first
  {
  }

  /** Replying to a reply restores the original envelope. */
  lemma ReplyOfReply<T, U, W>(m: Message<T>, u: U, w: W)
    ensures m.ReplyWith(u).ReplyWith(w) == Message(m.sender, m.destination, m.correlationKey, w)
  {
  }

  /** A reply to the sender is a reply to an explicit address that happens to be the sender. */
  lemma ReplyIsReplyToSender<T, U>(m: Message<T>, u: U)
    ensures m.ReplyWith(u) == m.ReplyTo(m.sender, u)
  {
  }

  /** Replacing the envelope leaves a message identical to one built from scratch. */
  lemma ReaddressedMessage<T>(m: Message<T>, from: ActorAddress, to: ActorAddress)
    ensures m.WithDestination(to).WithSender(from) == Message(from, to, m.correlationKey, m.body)
    ensures m.WithDestination(to).WithSender(from) == m.WithSender(from).WithDestination(to)
  {
  }

  /** Mapping by the identity conversion gives back the same message. */
  lemma MapIdentity<T>(m: Message<T>)
    ensures m.Map(x => x) == m
  {
  }
}
