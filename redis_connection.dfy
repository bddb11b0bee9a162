/**
 * The consumer-group stream connection (src/Connections/RedisConnection.php).
 * The Redis client is abstracted: what `xreadgroup` returned is an input of
 * `Consume`, and the `xack` calls are kept in a log; json_decode is a given
 * function from the entry's text to a PHP value (null for invalid JSON).
 */
module RedisConnections {
  import opened Wrappers
  import opened Messages

  /** One stream entry: its id and its field-value pairs. */
  datatype StreamEntry = StreamEntry(id: string, fields: map<string, string>)

  /** `xreadgroup`'s reply: the entries read, by stream; null and [] both read as the empty map. */
  type ReadReply = map<string, seq<StreamEntry>>

  /** The raw handle `consume` attaches: `['id' => $messageId, 'stream' => $this->stream]`. */
  function StreamHandle(id: string, stream: string): (raw: Raw)
    ensures raw.RawValue? && raw.value.JArray? && raw.value.entries.Keys == {"id", "stream"}
    ensures Lookup(raw.value, "id") == Some(JString(id)) && Lookup(raw.value, "stream") == Some(JString(stream))
  {
    RawValue(JArray(map["id" := JString(id), "stream" := JString(stream)]))
  }

  /** The id `ack` passes to xack: `raw['id']` when raw is an array holding a non-null id. */
  function AckTarget(m: Message): Option<Json>
  {
    if m.raw.RawValue? then Lookup(m.raw.value, "id") else None
  }

  /** The xack calls one `ack` makes: one for `raw['id']`, or none. */
  function AckCalls(m: Message): (ids: seq<Json>)
    ensures |ids| <= 1
    ensures ids != [] <==> m.raw.RawValue? && m.raw.value.JArray? && "id" in m.raw.value.entries
                            && m.raw.value.entries["id"] != JNull
    ensures ids != [] ==> ids[0] == m.raw.value.entries["id"]
  {
    if AckTarget(m).Some? then [AckTarget(m).value] else []
  }

  class RedisConnection {
    const stream: string
    const consumerGroup: string
    const consumerName: string
    /** The ids passed to `xack(stream, consumerGroup, [id])`, one per call, oldest first. */
    var acked: seq<Json>

    /**
     * Creating the consumer group fails when it already exists; the failure is
     * swallowed, so construction succeeds, with no xack yet, either way.
     */
    constructor (stream: string, consumerGroup: string, consumerName: string)
      ensures this.stream == stream && this.consumerGroup == consumerGroup && this.consumerName == consumerName
      ensures acked == []
    {
      this.stream := stream;
      this.consumerGroup := consumerGroup;
      this.consumerName := consumerName;
      acked := [];
    }

    /**
     * `consume`: nothing when the reply holds no entry for this stream, when the
     * first entry has no `data` field, or when its decoded body lacks a non-null
     * `type` or `payload`; a `type` that is an array or a `payload` that is not
     * one makes the Message constructor raise; otherwise the message carries the
     * entry id, the body's type and payload, and a handle naming id and stream.
     */
    function Consume(reply: ReadReply, jsonDecode: string -> Json): (r: Result<Option<Message>, TypeError>)
      ensures (stream !in reply || reply[stream] == []) ==> r == Ok(None)
      ensures stream in reply && reply[stream] != [] && "data" !in reply[stream][0].fields ==> r == Ok(None)
      ensures stream in reply && reply[stream] != [] && "data" in reply[stream][0].fields ==>
        var body := jsonDecode(reply[stream][0].fields["data"]);
        && (Lookup(body, "type").None? || Lookup(body, "payload").None? ==> r == Ok(None))
        && (Lookup(body, "type").Some? && Lookup(body, "payload").Some? ==>
              && (r.Err? <==> Lookup(body, "type").value.JArray? || !Lookup(body, "payload").value.JArray?)
              && (r.Ok? ==> r.value.Some? && r.value.value.id == reply[stream][0].id
                            && Some(r.value.value.eventType) == AsStringParam(Lookup(body, "type").value)
                            && r.value.value.payload == Lookup(body, "payload").value.entries))
      ensures r.Ok? && r.value.Some? ==> r.value.value.raw == StreamHandle(reply[stream][0].id, stream)
    {
      if stream !in reply || reply[stream] == [] then Ok(None)
      else
        var entry := reply[stream][0];
        if "data" !in entry.fields then Ok(None)
        else
          var body := jsonDecode(entry.fields["data"]);
          var ty := Lookup(body, "type");
          var payload := Lookup(body, "payload");
          if ty.None? || payload.None? then Ok(None)
          else if AsStringParam(ty.value).None? then Err(TypeError("type"))
          else if AsArrayParam(payload.value).None? then Err(TypeError("payload"))
          else Ok(Some(Message(entry.id, AsStringParam(ty.value).value, AsArrayParam(payload.value).value,
                               StreamHandle(entry.id, stream))))
    }

    /** `ack`: one xack for `raw['id']` when raw is an array with an id, none otherwise. */
    method Ack(m: Message)
      modifies this
      ensures acked == old(acked) + AckCalls(m)
    {
      if AckTarget(m).Some? {
        acked := acked + [AckTarget(m).value];
      }
    }

    /** `nack`: without requeue the entry is acked (dropped); with requeue it is left pending. */
    method Nack(m: Message, requeue: bool)
      modifies this
      ensures !requeue ==> acked == old(acked) + AckCalls(m)
      ensures requeue ==> acked == old(acked)
    {
      if !requeue && AckTarget(m).Some? {
        Ack(m);
      }
    }

    /** The client needs no explicit closing. */
    method Close()
      ensures acked == old(acked)
    {
    }
  }

  /** A message `consume` produced is acked by exactly one xack, for its stream entry id. */
  lemma ConsumedMessageAcksItsEntry(c: RedisConnection, reply: ReadReply, jsonDecode: string -> Json)
    requires c.Consume(reply, jsonDecode).Ok? && c.Consume(reply, jsonDecode).value.Some?
    ensures var m := c.Consume(reply, jsonDecode).value.value;
            AckCalls(m) == [JString(m.id)] && m.id == reply[c.stream][0].id
  {
  }
}
