/**
 * The values that cross the worker's pipes: JSON documents, the two commands
 * the host writes to the worker, and the events the host synthesises itself.
 */
module Wire {
  import opened Wrappers

  /** A JSON value as serde_json::Value holds it; an object maps keys to values. */
  datatype Json =
    | Null
    | Bool(b: bool)
    | Number(literal: string)
    | Str(s: string)
    | Array(items: seq<Json>)
    | Object(fields: map<string, Json>)

  /** The commands p2p_send and p2p_dial write to the worker, one object per line. */
  datatype Command = Send(channelId: string, data: string) | Dial(address: string)

  /**
   * The object a command is written as. A send carries exactly the keys
   * cmd, channelId and data (there is no target-peer key); a dial exactly
   * cmd and address.
   */
  function Encode(c: Command): (j: Json)
    ensures j.Object? && "cmd" in j.fields && "targetPeerId" !in j.fields
    ensures c.Send? ==> j.fields.Keys == {"cmd", "channelId", "data"} && j.fields["cmd"] == Str("send")
    ensures c.Dial? ==> j.fields.Keys == {"cmd", "address"} && j.fields["cmd"] == Str("dial")
    ensures c.Send? ==> j.fields["channelId"] == Str(c.channelId) && j.fields["data"] == Str(c.data)
    ensures c.Dial? ==> j.fields["address"] == Str(c.address)
  {
    match c
    case Send(channelId, data) =>
      Object(map["cmd" := Str("send"), "channelId" := Str(channelId), "data" := Str(data)])
    case Dial(address) =>
      Object(map["cmd" := Str("dial"), "address" := Str(address)])
  }

  /**
   * The inverse of Encode: the cmd tag selects the variant and the object
   * must carry exactly that variant's keys, each a string.
   */
  function Decode(j: Json): (c: Option<Command>)
    ensures c.Some? ==> Encode(c.value) == j
  {
    if !j.Object? || "cmd" !in j.fields then None
    else
      var f := j.fields;
      if f["cmd"] == Str("send") && f.Keys == {"cmd", "channelId", "data"}
         && f["channelId"].Str? && f["data"].Str?
      then
        var c := Send(f["channelId"].s, f["data"].s);
        assert Encode(c).fields == f;
        Some(c)
      else if f["cmd"] == Str("dial") && f.Keys == {"cmd", "address"} && f["address"].Str?
      then
        var c := Dial(f["address"].s);
        assert Encode(c).fields == f;
        Some(c)
      else None
  }

  /** Every command survives the trip through its wire object. */
  lemma DecodeEncode(c: Command)
    ensures Decode(Encode(c)) == Some(c)
  {
  }

  /** Distinct commands are written as distinct objects. */
  lemma EncodeInjective(c1: Command, c2: Command)
    ensures Encode(c1) == Encode(c2) ==> c1 == c2
  {
    DecodeEncode(c1);
    DecodeEncode(c2);
  }

  /** The message of the error event that closes every relay run. */
  const ExitMessage: string := "Sidecar process exited"

  /** The prefix of the error event a failed read produces. */
  const ReadErrorPrefix: string := "stdout read error: "

  /** The synthesised events are objects with exactly a type and a message. */
  function Event(kind: string, message: string): (e: Json)
    ensures e.Object? && e.fields.Keys == {"type", "message"}
    ensures e.fields["type"] == Str(kind) && e.fields["message"] == Str(message)
  {
    Object(map["type" := Str(kind), "message" := Str(message)])
  }

  /** {"type":"log","message":...}: how a line that is not JSON is forwarded. */
  function LogEvent(message: string): Json
  {
    Event("log", message)
  }

  /** {"type":"error","message":...}: read failures and worker exit. */
  function ErrorEvent(message: string): Json
  {
    Event("error", message)
  }

  function ExitEvent(): Json
  {
    ErrorEvent(ExitMessage)
  }

  function ReadErrorEvent(message: string): Json
  {
    ErrorEvent(ReadErrorPrefix + message)
  }

  /**
   * The terminal exit event can be told apart from every other event the
   * host synthesises: from a log event by its type, from a read-error event
   * by its message.
   */
  lemma ExitEventIsDistinct(line: string, readError: string)
    ensures LogEvent(line) != ExitEvent()
    ensures ReadErrorEvent(readError) != ExitEvent()
  {
    assert Str("log") != Str("error");
    var m := ReadErrorPrefix + readError;
    assert m[0] == 's' && ExitMessage[0] == 'S';
    assert Str(m) != Str(ExitMessage);
    assert ReadErrorEvent(readError).fields["message"] != ExitEvent().fields["message"];
  }
}
