/**
  Wire formats of common/messages.py: the JSON-encoded TCP message, the UDP packet
  (4-byte big-endian header length, JSON header, raw payload), the message factory
  and the structural validators.
 */
module Messages {
  import opened Wrappers
  import opened Bytes
  import opened JsonModel
  import opened Text

  // The values of the `MessageType` enumeration.
  const Chat := "chat"
  const FileUpload := "file_upload"
  const FileRequest := "file_request"
  const FileMetadataType := "file_metadata"
  const FileAvailable := "file_available"
  const FileDownloadChunk := "file_download_chunk"
  const ScreenShare := "screen_share"
  const ScreenShareStart := "screen_share_start"
  const ScreenShareStop := "screen_share_stop"
  const PresenterRequest := "presenter_request"
  const PresenterGranted := "presenter_granted"
  const PresenterDenied := "presenter_denied"
  const ClientJoin := "client_join"
  const ClientLeave := "client_leave"
  const Heartbeat := "heartbeat"
  const Welcome := "welcome"
  const ParticipantJoined := "participant_joined"
  const ParticipantLeft := "participant_left"
  const ParticipantStatusUpdate := "participant_status_update"
  const HeartbeatAck := "heartbeat_ack"
  const MediaStatusUpdate := "media_status_update"
  const UdpAddressUpdate := "udp_address_update"
  const ServerShutdown := "server_shutdown"
  const QualityUpdate := "quality_update"
  const ScreenShareError := "screen_share_error"
  const Audio := "audio"
  const Video := "video"

  /** Every value of the enumeration except the two UDP packet types. */
  const TcpMessageTypes: set<string> := {
    Chat, FileUpload, FileRequest, FileMetadataType, FileAvailable, FileDownloadChunk,
    ScreenShare, ScreenShareStart, ScreenShareStop, PresenterRequest, PresenterGranted,
    PresenterDenied, ClientJoin, ClientLeave, Heartbeat, Welcome, ParticipantJoined,
    ParticipantLeft, ParticipantStatusUpdate, HeartbeatAck, MediaStatusUpdate,
    UdpAddressUpdate, ServerShutdown, QualityUpdate, ScreenShareError }

  const UdpPacketTypes: set<string> := {Audio, Video}

  /** The field names of the `TCPMessage` dataclass, the only keywords its constructor takes. */
  const TcpFieldNames: set<string> := {"msg_type", "sender_id", "data", "timestamp", "message_id"}

  /** `TCPMessage` after `__post_init__`; `data` is whatever the sender put there (JNull stands for None). */
  datatype TCPMessage = TCPMessage(msgType: string, senderId: string, data: Json, timestamp: real, messageId: string)

  /** `UDPPacket` after `__post_init__`. */
  datatype UDPPacket = UDPPacket(packetType: string, senderId: string, sequenceNum: int, data: seq<byte>, timestamp: real)

  /** `TCPMessage(...)`: the timestamp and id are filled from the clock and uuid4 only when not given. */
  function NewTcpMessage(msgType: string, senderId: string, data: Json, timestamp: Option<real>,
                         messageId: Option<string>, now: real, freshId: string): (m: TCPMessage)
    ensures m.msgType == msgType && m.senderId == senderId && m.data == data
    ensures m.timestamp == (if timestamp.Some? then timestamp.value else now)
    ensures m.messageId == (if messageId.Some? then messageId.value else freshId)
  {
    TCPMessage(msgType, senderId, data,
               match timestamp case Some(t) => t case None => now,
               match messageId case Some(i) => i case None => freshId)
  }

  /** `UDPPacket(...)`: the timestamp is filled from the clock only when not given. */
  function NewUdpPacket(packetType: string, senderId: string, sequenceNum: int, data: seq<byte>,
                        timestamp: Option<real>, now: real): (p: UDPPacket)
    ensures p.packetType == packetType && p.senderId == senderId && p.sequenceNum == sequenceNum && p.data == data
    ensures p.timestamp == (if timestamp.Some? then timestamp.value else now)
  {
    UDPPacket(packetType, senderId, sequenceNum, data, match timestamp case Some(t) => t case None => now)
  }

  // ---------------------------------------------------------------- TCP messages

  /** `asdict(message)` */
  function TcpToJson(m: TCPMessage): Json
  {
    JObject(map["msg_type" := JStr(m.msgType), "sender_id" := JStr(m.senderId), "data" := m.data,
                "timestamp" := JFloat(m.timestamp), "message_id" := JStr(m.messageId)])
  }

  /** `TCPMessage.serialize` */
  function SerializeTcp(c: Codec, m: TCPMessage): (r: seq<byte>)
    ensures RoundTrips(c) ==> c.decode(r) == Some(TcpToJson(m))
  {
    c.encode(TcpToJson(m))
  }

  /** A timestamp keyword: missing or null means "fill from the clock". */
  function TimestampField(f: map<string, Json>, now: real): Option<real>
  {
    if "timestamp" !in f then Some(now)
    else match f["timestamp"]
      case JNull => Some(now)
      case JFloat(r) => Some(r)
      case JInt(i) => Some(i as real)
      case _ => None
  }

  /** A message-id keyword: missing or null means "fill from uuid4". */
  function MessageIdField(f: map<string, Json>, freshId: string): Option<string>
  {
    if "message_id" !in f then Some(freshId)
    else match f["message_id"]
      case JNull => Some(freshId)
      case JStr(s) => Some(s)
      case _ => None
  }

  /** `cls(**message_dict)`: only the dataclass's keywords, the three without defaults present. */
  function TcpFromJson(j: Json, now: real, freshId: string): (r: Result<TCPMessage, string>)
    ensures r.Ok? ==> j.JObject? && j.fields.Keys <= TcpFieldNames
    ensures r.Ok? ==> && "msg_type" in j.fields && "sender_id" in j.fields && "data" in j.fields
                      && j.fields["msg_type"] == JStr(r.value.msgType)
                      && j.fields["sender_id"] == JStr(r.value.senderId)
                      && j.fields["data"] == r.value.data
    ensures j.JObject? && !({"msg_type", "sender_id", "data"} <= j.fields.Keys) ==> r.Err?
  {
    if !j.JObject? || !(j.fields.Keys <= TcpFieldNames) then Err("Failed to deserialize TCP message")
    else
      var f := j.fields;
      if "msg_type" !in f || "sender_id" !in f || "data" !in f then Err("Failed to deserialize TCP message")
      else if !f["msg_type"].JStr? || !f["sender_id"].JStr? then Err("Failed to deserialize TCP message")
      else
        var ts := TimestampField(f, now);
        var id := MessageIdField(f, freshId);
        if ts.None? || id.None? then Err("Failed to deserialize TCP message")
        else Ok(TCPMessage(f["msg_type"].s, f["sender_id"].s, f["data"], ts.value, id.value))
  }

  /** `TCPMessage.deserialize`: bytes that do not parse raise ValueError. */
  function DeserializeTcp(c: Codec, b: seq<byte>, now: real, freshId: string): (r: Result<TCPMessage, string>)
    ensures c.decode(b).None? ==> r.Err?
  {
    match c.decode(b)
    case None => Err("Failed to deserialize TCP message")
    case Some(j) => TcpFromJson(j, now, freshId)
  }

  /** A serialized message deserializes to itself: type, sender, data, timestamp and id all survive. */
  lemma TcpRoundTrip(c: Codec, m: TCPMessage, now: real, freshId: string)
    requires RoundTrips(c)
    ensures DeserializeTcp(c, SerializeTcp(c, m), now, freshId) == Ok(m)
  {
    assert c.decode(c.encode(TcpToJson(m))) == Some(TcpToJson(m));
  }

  /** `MessageValidator.validate_tcp_message` (with `is_valid`: no field is None). */
  predicate ValidTcpMessage(m: TCPMessage)
  {
    && m.data != JNull
    && m.msgType in TcpMessageTypes
    && Strip(m.senderId) != []
    && m.data.JObject?
  }

  /** `deserialize_tcp_message`: parse, then refuse what the validator refuses. */
  function DeserializeTcpMessage(c: Codec, b: seq<byte>, now: real, freshId: string): (r: Result<TCPMessage, string>)
    ensures r.Ok? ==> ValidTcpMessage(r.value) && DeserializeTcp(c, b, now, freshId) == r
    ensures DeserializeTcp(c, b, now, freshId).Ok? && !ValidTcpMessage(DeserializeTcp(c, b, now, freshId).value) ==> r.Err?
  {
    match DeserializeTcp(c, b, now, freshId)
    case Err(e) => Err(e)
    case Ok(m) => if ValidTcpMessage(m) then Ok(m) else Err("Invalid TCP message structure")
  }

  /** Through the validating entry point, exactly the valid messages survive a round trip. */
  lemma ValidatedTcpRoundTrip(c: Codec, m: TCPMessage, now: real, freshId: string)
    requires RoundTrips(c)
    ensures DeserializeTcpMessage(c, SerializeTcp(c, m), now, freshId).Ok? <==> ValidTcpMessage(m)
    ensures ValidTcpMessage(m) ==> DeserializeTcpMessage(c, SerializeTcp(c, m), now, freshId) == Ok(m)
  {
    TcpRoundTrip(c, m, now, freshId);
  }

  // ---------------------------------------------------------------- UDP packets

  /** The header dictionary written in front of the payload. */
  function UdpHeader(p: UDPPacket): Json
  {
    JObject(map["packet_type" := JStr(p.packetType), "sender_id" := JStr(p.senderId),
                "sequence_num" := JInt(p.sequenceNum), "timestamp" := JFloat(p.timestamp),
                "data_length" := JInt(|p.data|)])
  }

  /**
    `UDPPacket.serialize`: header length (4 bytes, big-endian), header, payload. A header
    too long for the length field makes `to_bytes` raise, reported as ValueError.
   */
  function SerializeUdp(c: Codec, p: UDPPacket): (r: Result<seq<byte>, string>)
    ensures r.Ok? <==> |c.encode(UdpHeader(p))| < TwoTo32
    ensures r.Ok? ==>
              var h := c.encode(UdpHeader(p));
              && |r.value| == 4 + |h| + |p.data|
              && DecodeLength(r.value[..4]) == |h|
              && r.value[4..4 + |h|] == h
              && r.value[4 + |h|..] == p.data
  {
    var h := c.encode(UdpHeader(p));
    if |h| >= TwoTo32 then Err("Failed to serialize UDP packet")
    else
      var r := EncodeLength(|h|) + h + p.data;
      assert r[..4] == EncodeLength(|h|);
      assert r[4..4 + |h|] == h;
      assert r[4 + |h|..] == p.data;
      Ok(r)
  }

  /** `len(payload) != header.get('data_length', 0)` with Python's mixed-type equality. */
  predicate LengthMatches(expected: Json, n: nat)
  {
    match expected
    case JInt(i) => i == n
    case JFloat(r) => r == n as real
    case JBool(b) => (if b then 1 else 0) == n
    case _ => false
  }

  /** `header.get('data_length', 0)` */
  function DataLengthField(f: map<string, Json>): Json
  {
    if "data_length" in f then f["data_length"] else JInt(0)
  }

  /** The packet fields read from a parsed header (`header['...']`, a missing key raising). */
  function UdpFromHeader(f: map<string, Json>, payload: seq<byte>, now: real): (r: Result<UDPPacket, string>)
    ensures r.Ok? ==> r.value.data == payload
  {
    if "packet_type" !in f || "sender_id" !in f || "sequence_num" !in f || "timestamp" !in f then
      Err("Failed to deserialize UDP packet")
    else if !f["packet_type"].JStr? || !f["sender_id"].JStr? || !f["sequence_num"].JInt? then
      Err("Failed to deserialize UDP packet")
    else
      match TimestampField(f, now)
      case None => Err("Failed to deserialize UDP packet")
      case Some(t) => Ok(UDPPacket(f["packet_type"].s, f["sender_id"].s, f["sequence_num"].i, payload, t))
  }

  /** `UDPPacket.deserialize` */
  function DeserializeUdp(c: Codec, b: seq<byte>, now: real): (r: Result<UDPPacket, string>)
    ensures |b| < 4 ==> r.Err?
    ensures |b| >= 4 && |b| < 4 + DecodeLength(b[..4]) ==> r.Err?
    ensures r.Ok? ==>
              var hl := DecodeLength(b[..4]);
              && 4 + hl <= |b|
              && r.value.data == b[4 + hl..]
              && c.decode(b[4..4 + hl]).Some?
              && c.decode(b[4..4 + hl]).value.JObject?
              && LengthMatches(DataLengthField(c.decode(b[4..4 + hl]).value.fields), |b| - 4 - hl)
  {
    if |b| < 4 then Err("Packet too short")
    else
      var hl := DecodeLength(b[..4]);
      if |b| < 4 + hl then Err("Invalid header length")
      else
        match c.decode(b[4..4 + hl])
        case None => Err("Failed to deserialize UDP packet")
        case Some(h) =>
          if !h.JObject? then Err("Failed to deserialize UDP packet")
          else
            var payload := b[4 + hl..];
            if !LengthMatches(DataLengthField(h.fields), |payload|) then Err("Data length mismatch")
            else UdpFromHeader(h.fields, payload, now)
  }

  /** A serialized packet deserializes to itself. */
  lemma UdpRoundTrip(c: Codec, p: UDPPacket, now: real)
    requires RoundTrips(c)
    requires SerializeUdp(c, p).Ok?
    ensures DeserializeUdp(c, SerializeUdp(c, p).value, now) == Ok(p)
  {
    var h := c.encode(UdpHeader(p));
    var b := SerializeUdp(c, p).value;
    assert c.decode(h) == Some(UdpHeader(p));
    assert DecodeLength(b[..4]) == |h|;
    assert b[4..4 + |h|] == h;
  }

  /** `MessageValidator.validate_udp_packet` */
  predicate ValidUdpPacket(p: UDPPacket)
  {
    && p.packetType in UdpPacketTypes
    && Strip(p.senderId) != []
    && p.sequenceNum >= 0
  }

  /** `deserialize_udp_packet`: parse, then refuse what the validator refuses. */
  function DeserializeUdpPacket(c: Codec, b: seq<byte>, now: real): (r: Result<UDPPacket, string>)
    ensures r.Ok? ==> ValidUdpPacket(r.value) && DeserializeUdp(c, b, now) == r
    ensures DeserializeUdp(c, b, now).Ok? && !ValidUdpPacket(DeserializeUdp(c, b, now).value) ==> r.Err?
  {
    match DeserializeUdp(c, b, now)
    case Err(e) => Err(e)
    case Ok(p) => if ValidUdpPacket(p) then Ok(p) else Err("Invalid UDP packet structure")
  }

  // ---------------------------------------------------------------- MessageFactory

  /** `create_chat_message`: a CHAT message from the sender whose data holds only the text, under `message`, stamped now with a fresh id. */
  function CreateChatMessage(senderId: string, text: string, now: real, freshId: string): (r: TCPMessage)
    ensures r.msgType == Chat && r.senderId == senderId && r.timestamp == now && r.messageId == freshId
    ensures r.data.JObject? && r.data.fields.Keys == {"message"}
    ensures r.data.fields["message"] == JStr(text)
  {
    NewTcpMessage(Chat, senderId, JObject(map["message" := JStr(text)]), None, None, now, freshId)
  }

  /** `create_heartbeat_message`: a HEARTBEAT from the sender whose data is only `status` "alive", stamped now with a fresh id. */
  function CreateHeartbeatMessage(senderId: string, now: real, freshId: string): (r: TCPMessage)
    ensures r.msgType == Heartbeat && r.senderId == senderId && r.timestamp == now && r.messageId == freshId
    ensures r.data.JObject? && r.data.fields.Keys == {"status"}
    ensures r.data.fields["status"] == JStr("alive")
  {
    NewTcpMessage(Heartbeat, senderId, JObject(map["status" := JStr("alive")]), None, None, now, freshId)
  }

  /** `create_client_join_message`: a CLIENT_JOIN from the sender whose data holds only the user name, stamped now with a fresh id. */
  function CreateClientJoinMessage(senderId: string, username: string, now: real, freshId: string): (r: TCPMessage)
    ensures r.msgType == ClientJoin && r.senderId == senderId && r.timestamp == now && r.messageId == freshId
    ensures r.data.JObject? && r.data.fields.Keys == {"username"}
    ensures r.data.fields["username"] == JStr(username)
  {
    NewTcpMessage(ClientJoin, senderId, JObject(map["username" := JStr(username)]), None, None, now, freshId)
  }

  /** `create_client_leave_message`: a CLIENT_LEAVE from the sender with empty data, stamped now with a fresh id. */
  function CreateClientLeaveMessage(senderId: string, now: real, freshId: string): (r: TCPMessage)
    ensures r.msgType == ClientLeave && r.senderId == senderId && r.timestamp == now && r.messageId == freshId
    ensures r.data.JObject? && r.data.fields.Keys == {}
  {
    NewTcpMessage(ClientLeave, senderId, JObject(map[]), None, None, now, freshId)
  }

  /** `create_client_disconnect_message`: a PARTICIPANT_LEFT from "server" naming the client, its user name and the reason, stamped now with a fresh id. */
  function CreateClientDisconnectMessage(clientId: string, username: string, reason: string,
                                         now: real, freshId: string): (r: TCPMessage)
    ensures r.msgType == ParticipantLeft && r.senderId == "server" && r.timestamp == now && r.messageId == freshId
    ensures r.data.JObject? && r.data.fields.Keys == {"client_id", "username", "reason"}
    ensures r.data.fields["client_id"] == JStr(clientId) && r.data.fields["username"] == JStr(username) && r.data.fields["reason"] == JStr(reason)
  {
    NewTcpMessage(ParticipantLeft, "server",
                  JObject(map["client_id" := JStr(clientId), "username" := JStr(username), "reason" := JStr(reason)]),
                  None, None, now, freshId)
  }

  /** `create_file_metadata_message`: a FILE_METADATA from the sender carrying the name, size and id, stamped now with a fresh id. */
  function CreateFileMetadataMessage(senderId: string, filename: string, filesize: int, fileId: string,
                                     now: real, freshId: string): (r: TCPMessage)
    ensures r.msgType == FileMetadataType && r.senderId == senderId && r.timestamp == now && r.messageId == freshId
    ensures r.data.JObject? && r.data.fields.Keys == {"filename", "filesize", "file_id"}
    ensures r.data.fields["filename"] == JStr(filename) && r.data.fields["filesize"] == JInt(filesize) && r.data.fields["file_id"] == JStr(fileId)
  {
    NewTcpMessage(FileMetadataType, senderId,
                  JObject(map["filename" := JStr(filename), "filesize" := JInt(filesize), "file_id" := JStr(fileId)]),
                  None, None, now, freshId)
  }

  /** `create_presenter_request_message`: a PRESENTER_REQUEST from the sender with empty data, stamped now with a fresh id. */
  function CreatePresenterRequestMessage(senderId: string, now: real, freshId: string): (r: TCPMessage)
    ensures r.msgType == PresenterRequest && r.senderId == senderId && r.timestamp == now && r.messageId == freshId
    ensures r.data.JObject? && r.data.fields.Keys == {}
  {
    NewTcpMessage(PresenterRequest, senderId, JObject(map[]), None, None, now, freshId)
  }

  /** `create_presenter_granted_message`: a PRESENTER_GRANTED from the sender naming the presenter, stamped now with a fresh id. */
  function CreatePresenterGrantedMessage(senderId: string, presenterId: string, now: real, freshId: string): (r: TCPMessage)
    ensures r.msgType == PresenterGranted && r.senderId == senderId && r.timestamp == now && r.messageId == freshId
    ensures r.data.JObject? && r.data.fields.Keys == {"presenter_id"}
    ensures r.data.fields["presenter_id"] == JStr(presenterId)
  {
    NewTcpMessage(PresenterGranted, senderId, JObject(map["presenter_id" := JStr(presenterId)]), None, None, now, freshId)
  }

  /** `create_presenter_denied_message`: a PRESENTER_DENIED from the sender giving the reason, stamped now with a fresh id. */
  function CreatePresenterDeniedMessage(senderId: string, reason: string, now: real, freshId: string): (r: TCPMessage)
    ensures r.msgType == PresenterDenied && r.senderId == senderId && r.timestamp == now && r.messageId == freshId
    ensures r.data.JObject? && r.data.fields.Keys == {"reason"}
    ensures r.data.fields["reason"] == JStr(reason)
  {
    NewTcpMessage(PresenterDenied, senderId, JObject(map["reason" := JStr(reason)]), None, None, now, freshId)
  }

  /** `create_screen_share_start_message`: a SCREEN_SHARE_START from the sender with empty data, stamped now with a fresh id. */
  function CreateScreenShareStartMessage(senderId: string, now: real, freshId: string): (r: TCPMessage)
    ensures r.msgType == ScreenShareStart && r.senderId == senderId && r.timestamp == now && r.messageId == freshId
    ensures r.data.JObject? && r.data.fields.Keys == {}
  {
    NewTcpMessage(ScreenShareStart, senderId, JObject(map[]), None, None, now, freshId)
  }

  /** `create_screen_share_stop_message`: a SCREEN_SHARE_STOP from the sender with empty data, stamped now with a fresh id. */
  function CreateScreenShareStopMessage(senderId: string, now: real, freshId: string): (r: TCPMessage)
    ensures r.msgType == ScreenShareStop && r.senderId == senderId && r.timestamp == now && r.messageId == freshId
    ensures r.data.JObject? && r.data.fields.Keys == {}
  {
    NewTcpMessage(ScreenShareStop, senderId, JObject(map[]), None, None, now, freshId)
  }

  /** `create_audio_packet`: an AUDIO packet from the sender carrying the number and the payload, stamped now. */
  function CreateAudioPacket(senderId: string, sequenceNum: int, audio: seq<byte>, now: real): (r: UDPPacket)
    ensures r.packetType == Audio && r.senderId == senderId && r.sequenceNum == sequenceNum && r.data == audio && r.timestamp == now
  {
    NewUdpPacket(Audio, senderId, sequenceNum, audio, None, now)
  }

  /** `create_video_packet`: a VIDEO packet from the sender carrying the number and the payload, stamped now. */
  function CreateVideoPacket(senderId: string, sequenceNum: int, video: seq<byte>, now: real): (r: UDPPacket)
    ensures r.packetType == Video && r.senderId == senderId && r.sequenceNum == sequenceNum && r.data == video && r.timestamp == now
  {
    NewUdpPacket(Video, senderId, sequenceNum, video, None, now)
  }

  /** The client-side factory messages pass the validator exactly when their sender is not blank. */
  lemma FactoryMessagesValid(senderId: string, text: string, now: real, freshId: string)
    ensures ValidTcpMessage(CreateChatMessage(senderId, text, now, freshId)) <==> Strip(senderId) != []
    ensures ValidTcpMessage(CreateHeartbeatMessage(senderId, now, freshId)) <==> Strip(senderId) != []
    ensures ValidTcpMessage(CreateClientJoinMessage(senderId, text, now, freshId)) <==> Strip(senderId) != []
    ensures ValidTcpMessage(CreateClientLeaveMessage(senderId, now, freshId)) <==> Strip(senderId) != []
  {
    ChatMessageValid(senderId, text, now, freshId);
    HeartbeatMessageValid(senderId, now, freshId);
    JoinMessageValid(senderId, text, now, freshId);
    LeaveMessageValid(senderId, now, freshId);
  }

  lemma ChatMessageValid(senderId: string, text: string, now: real, freshId: string)
    ensures ValidTcpMessage(CreateChatMessage(senderId, text, now, freshId)) <==> Strip(senderId) != []
  {
    assert Chat in TcpMessageTypes;
  }

  lemma HeartbeatMessageValid(senderId: string, now: real, freshId: string)
    ensures ValidTcpMessage(CreateHeartbeatMessage(senderId, now, freshId)) <==> Strip(senderId) != []
  {
    assert Heartbeat in TcpMessageTypes;
  }

  lemma JoinMessageValid(senderId: string, username: string, now: real, freshId: string)
    ensures ValidTcpMessage(CreateClientJoinMessage(senderId, username, now, freshId)) <==> Strip(senderId) != []
  {
    assert ClientJoin in TcpMessageTypes;
  }

  lemma LeaveMessageValid(senderId: string, now: real, freshId: string)
    ensures ValidTcpMessage(CreateClientLeaveMessage(senderId, now, freshId)) <==> Strip(senderId) != []
  {
    assert ClientLeave in TcpMessageTypes;
  }

  /** The presenter and screen-share factory messages pass the validator exactly when their sender is not blank. */
  lemma FactoryPresenterMessagesValid(senderId: string, text: string, now: real, freshId: string)
    ensures ValidTcpMessage(CreatePresenterRequestMessage(senderId, now, freshId)) <==> Strip(senderId) != []
    ensures ValidTcpMessage(CreatePresenterGrantedMessage(senderId, text, now, freshId)) <==> Strip(senderId) != []
    ensures ValidTcpMessage(CreatePresenterDeniedMessage(senderId, text, now, freshId)) <==> Strip(senderId) != []
    ensures ValidTcpMessage(CreateScreenShareStartMessage(senderId, now, freshId)) <==> Strip(senderId) != []
    ensures ValidTcpMessage(CreateScreenShareStopMessage(senderId, now, freshId)) <==> Strip(senderId) != []
  {
    assert PresenterRequest in TcpMessageTypes && PresenterGranted in TcpMessageTypes && PresenterDenied in TcpMessageTypes;
    assert ScreenShareStart in TcpMessageTypes && ScreenShareStop in TcpMessageTypes;
  }

  /** The server's sender id "server" survives `strip()`. */
  lemma ServerIsNotBlank()
    ensures Strip("server") == "server"
  {
    var sender := "server";
    assert !IsSpace(sender[0]) && !IsSpace(sender[|sender| - 1]);
    StripUnchanged(sender);
  }

  /** The server's disconnect notice always passes the validator (its sender is "server"). */
  lemma DisconnectMessageValid(clientId: string, username: string, reason: string, now: real, freshId: string)
    ensures ValidTcpMessage(CreateClientDisconnectMessage(clientId, username, reason, now, freshId))
  {
    var m := CreateClientDisconnectMessage(clientId, username, reason, now, freshId);
    assert m.msgType in TcpMessageTypes by { assert m.msgType == ParticipantLeft; }
    ServerIsNotBlank();
  }

  /** Factory packets pass the UDP validator exactly when the sender is not blank and the number is not negative. */
  lemma FactoryPacketsValid(senderId: string, sequenceNum: int, payload: seq<byte>, now: real)
    ensures ValidUdpPacket(CreateAudioPacket(senderId, sequenceNum, payload, now))
            <==> Strip(senderId) != [] && sequenceNum >= 0
    ensures ValidUdpPacket(CreateVideoPacket(senderId, sequenceNum, payload, now))
            <==> Strip(senderId) != [] && sequenceNum >= 0
  {
  }
}
