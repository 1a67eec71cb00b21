/** The two events the script reports to the event-logging service
    (agi/call_opensips.py:70-100). Each event is the field dictionary that is
    serialised to JSON and POSTed; serialisation and transmission are outside
    the model. */
module Events {
  import opened Wrappers

  /** The JSON values the payloads use: integers and strings. */
  datatype Json = JInt(i: int) | JStr(s: string)

  type Payload = map<string, Json>

  const ApiVersion := 1
  const CallStartType := "ASTERISK_CALL_START"
  const CallEndType := "ASTERISK_CALL_END"

  const CallStartKeys := {"api_version", "event_type", "call_id", "recording", "server_ip", "extension", "start_time"}
  const CallEndKeys := {"api_version", "event_type", "call_id", "transfer_state_name", "end_time"}

  /** The fields a reader of an ASTERISK_CALL_START event gets back. */
  datatype CallStart = CallStart(callId: string, recording: string, serverIp: string, extension: string, startTime: string)

  /** The fields a reader of an ASTERISK_CALL_END event gets back. */
  datatype CallEnd = CallEnd(callId: string, transferStateName: string, endTime: string)

  /** The payload of saveHalefCallStartDetails. */
  function CallStartPayload(callId: string, recordingFilename: string, serverIp: string,
                            extension: string, startTime: string): (p: Payload)
    ensures p.Keys == CallStartKeys
    ensures p["api_version"] == JInt(1) && p["event_type"] == JStr("ASTERISK_CALL_START")
  {
    map["api_version" := JInt(ApiVersion),
        "event_type" := JStr(CallStartType),
        "call_id" := JStr(callId),
        "recording" := JStr(recordingFilename),
        "server_ip" := JStr(serverIp),
        "extension" := JStr(extension),
        "start_time" := JStr(startTime)]
  }

  /** The payload of saveHalefEndStartDetails. */
  function CallEndPayload(callId: string, transferStateName: string, endTime: string): (p: Payload)
    ensures p.Keys == CallEndKeys
    ensures p["api_version"] == JInt(1) && p["event_type"] == JStr("ASTERISK_CALL_END")
  {
    map["api_version" := JInt(ApiVersion),
        "event_type" := JStr(CallEndType),
        "call_id" := JStr(callId),
        "transfer_state_name" := JStr(transferStateName),
        "end_time" := JStr(endTime)]
  }

  /** The string stored under `key`, if there is one. */
  function StrField(p: Payload, key: string): Option<string>
  {
    if key in p && p[key].JStr? then Some(p[key].s) else None
  }

  /** How the event-logging service reads a start event back. */
  function DecodeCallStart(p: Payload): Option<CallStart>
  {
    if p.Keys == CallStartKeys && p["api_version"] == JInt(ApiVersion) && p["event_type"] == JStr(CallStartType)
       && StrField(p, "call_id").Some? && StrField(p, "recording").Some? && StrField(p, "server_ip").Some?
       && StrField(p, "extension").Some? && StrField(p, "start_time").Some?
    then Some(CallStart(StrField(p, "call_id").value, StrField(p, "recording").value, StrField(p, "server_ip").value,
                        StrField(p, "extension").value, StrField(p, "start_time").value))
    else None
  }

  /** How the event-logging service reads an end event back. */
  function DecodeCallEnd(p: Payload): Option<CallEnd>
  {
    if p.Keys == CallEndKeys && p["api_version"] == JInt(ApiVersion) && p["event_type"] == JStr(CallEndType)
       && StrField(p, "call_id").Some? && StrField(p, "transfer_state_name").Some? && StrField(p, "end_time").Some?
    then Some(CallEnd(StrField(p, "call_id").value, StrField(p, "transfer_state_name").value, StrField(p, "end_time").value))
    else None
  }

  /** A start payload reads back as the start event it was built from, and
      never as an end event. */
  lemma CallStartRoundTrip(callId: string, recordingFilename: string, serverIp: string, extension: string, startTime: string)
    ensures DecodeCallStart(CallStartPayload(callId, recordingFilename, serverIp, extension, startTime))
            == Some(CallStart(callId, recordingFilename, serverIp, extension, startTime))
    ensures DecodeCallEnd(CallStartPayload(callId, recordingFilename, serverIp, extension, startTime)) == None
  {
    var p := CallStartPayload(callId, recordingFilename, serverIp, extension, startTime);
    assert |CallStartType| != |CallEndType|;
  }

  /** An end payload reads back as the end event it was built from, and never
      as a start event. */
  lemma CallEndRoundTrip(callId: string, transferStateName: string, endTime: string)
    ensures DecodeCallEnd(CallEndPayload(callId, transferStateName, endTime))
            == Some(CallEnd(callId, transferStateName, endTime))
    ensures DecodeCallStart(CallEndPayload(callId, transferStateName, endTime)) == None
  {
    var p := CallEndPayload(callId, transferStateName, endTime);
    assert |CallStartType| != |CallEndType|;
  }
}
