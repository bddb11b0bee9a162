/**
 * The in-memory test double of a connection (src/Connections/FakeConnection.php):
 * an append-only log of published messages that can also be cleared.
 */
module FakeConnections {
  import opened Wrappers
  import opened Messages

  /** The prefix `uniqid('msg_')` puts before its unique suffix. */
  const GeneratedIdPrefix: string := "msg_"

  /**
   * The message `publish` logs: the caller's id verbatim when one is given
   * (PHP's `??` only replaces null), otherwise "msg_" followed by the unique
   * suffix `uniq` that uniqid supplies; raw is always null.
   */
  function LoggedMessage(eventType: string, payload: Payload, id: Option<string>, uniq: string): (m: Message)
    ensures id.Some? ==> m.id == id.value
    ensures id.None? ==> |m.id| > 0 && |m.id| == |GeneratedIdPrefix| + |uniq| && m.id[..|GeneratedIdPrefix|] == GeneratedIdPrefix && m.id[|GeneratedIdPrefix|..] == uniq
    ensures m.eventType == eventType && m.payload == payload && m.raw == NoRaw
  {
    Message(if id.Some? then id.value else GeneratedIdPrefix + uniq, eventType, payload, NoRaw)
  }

  class FakeConnection {
    /** Every message published so far, oldest first. */
    var messages: seq<Message>

    constructor ()
      ensures messages == []
    {
      messages := [];
    }

    /** A producer-side double: there is never anything to consume. */
    method Consume() returns (r: Option<Message>)
      ensures r == None
    {
      r := None;
    }

    /** No-op: the log is left as it is. */
    method Ack(m: Message)
      ensures messages == old(messages)
    {
    }

    /** No-op: the log is left as it is, whatever `requeue` says. */
    method Nack(m: Message, requeue: bool)
      ensures messages == old(messages)
    {
    }

    /** No-op: the log is left as it is. */
    method Close()
      ensures messages == old(messages)
    {
    }

    /** Appends exactly one message; earlier entries are kept in place. */
    method Publish(eventType: string, payload: Payload, id: Option<string>, uniq: string)
      modifies this
      ensures messages == old(messages) + [LoggedMessage(eventType, payload, id, uniq)]
      ensures |messages| == |old(messages)| + 1
      ensures messages[..|old(messages)|] == old(messages)
    {
      messages := messages + [LoggedMessage(eventType, payload, id, uniq)];
    }

    /** `getMessages`: the whole log, oldest first, nothing filtered out. */
    function GetMessages(): (log: seq<Message>)
      reads this
      ensures log == messages
    {
      messages
    }

    method ClearMessages()
      modifies this
      ensures messages == []
    {
      messages := [];
    }
  }
}
