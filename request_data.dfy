/**
 * The outbound payload builder (`create_request_data`): a map that always holds
 * the recipient under "to", holds the message content under "data" only when
 * content is supplied, and holds "isRoom" (as true) only for a group chat.
 */
module RequestData {
  import opened Wrappers

  /** The JSON values a payload can carry. */
  datatype Json =
    | JNull
    | JBool(b: bool)
    | JInt(i: int)
    | JString(s: string)
    | JArray(items: seq<Json>)
    | JObject(fields: map<string, Json>)

  /** Message content: a dict or a list. */
  datatype MessageData = DictData(fields: map<string, Json>) | ListData(items: seq<Json>)

  function ToJson(d: MessageData): Json {
    match d
    case DictData(fields) => JObject(fields)
    case ListData(items) => JArray(items)
  }

  const ToKey: string := "to"
  const DataKey: string := "data"
  const IsRoomKey: string := "isRoom"

  /** A message to the relay: recipient, optional content and the room flag. */
  datatype OutboundMessage = OutboundMessage(to: string, data: Option<MessageData>, isRoom: bool)

  /**
   * How a payload map reads back as a message. Only maps of the payload's
   * shape are accepted: "to" a string, "data" (when present) a dict or a list,
   * "isRoom" (when present) exactly true, and no other key.
   */
  function ReadRequestData(m: map<string, Json>): Option<OutboundMessage> {
    if && m.Keys <= {ToKey, DataKey, IsRoomKey}
       && ToKey in m && m[ToKey].JString?
       && (DataKey in m ==> m[DataKey].JObject? || m[DataKey].JArray?)
       && (IsRoomKey in m ==> m[IsRoomKey] == JBool(true))
    then
      var data := if DataKey in m then
                    (match m[DataKey]
                     case JObject(fields) => Some(DictData(fields))
                     case JArray(items) => Some(ListData(items))
                     case _ => None)
                  else None;
      Some(OutboundMessage(m[ToKey].s, data, IsRoomKey in m))
    else
      None
  }

  /** Two payloads that read back as the same message are the same map. */
  lemma ReadRequestDataInjective(m1: map<string, Json>, m2: map<string, Json>)
    requires ReadRequestData(m1).Some?
    requires ReadRequestData(m1) == ReadRequestData(m2)
    ensures m1 == m2
  {
  }

  /**
   * Builds the payload by starting from {"to": to} and adding the optional
   * keys by successive updates of a local map.
   */
  method CreateRequestData(to: string, data: Option<MessageData> := None, isRoom: bool := false)
    returns (requestData: map<string, Json>)
    ensures ToKey in requestData && requestData[ToKey] == JString(to)
    ensures DataKey in requestData <==> data.Some?
    ensures data.Some? ==> requestData[DataKey] == ToJson(data.value)
    ensures IsRoomKey in requestData <==> isRoom
    ensures isRoom ==> requestData[IsRoomKey] == JBool(true)
    ensures requestData.Keys <= {ToKey, DataKey, IsRoomKey}
    ensures ReadRequestData(requestData) == Some(OutboundMessage(to, data, isRoom))
  {
    requestData := map[ToKey := JString(to)];
    if data.Some? {
      requestData := requestData[DataKey := ToJson(data.value)];
    }
    if isRoom {
      requestData := requestData[IsRoomKey := JBool(true)];
    }
  }
}
