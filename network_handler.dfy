/**
  The server's connection handler (server/network_handler.py): the join handshake, the
  dispatch of TCP messages by type, the chat validator, broadcast exclusion, the framing of
  outgoing messages, UDP packet routing, client cleanup and one turn of the heartbeat monitor.

  A handler step returns what it hands to `_send_tcp_message` (a `Reply` to the client it
  serves) and to `_broadcast_tcp_message` (a `Broadcast`); `BroadcastTcpMessage` is the
  delivery loop itself. Sockets, clocks, uuids and file-system outcomes are parameters.
 */
module NetworkHandlerModel {
  import opened Wrappers
  import opened Bytes
  import opened JsonModel
  import opened Text
  import opened Messages
  import opened FileMetadataModel
  import opened Sessions
  import opened MediaRelayModel
  import opened PerformanceMonitorModel
  import opened Networking
  import opened HexText

  const ServerId := "server"
  /** The longest chat text `_validate_chat_message` lets through. */
  const MaxChatLength: nat := 1000
  /** `heartbeat_timeout` */
  const HeartbeatTimeout: real := 30.0
  /** The chunk size `_send_file_to_client` reads and sends. */
  const DownloadChunkSize: nat := 8192

  /** A message for the client being served, or for every client but `exclude` ("" excludes nobody). */
  datatype Outgoing =
    | Reply(msg: TCPMessage)
    | Broadcast(msg: TCPMessage, exclude: string)

  /**
    What the world outside the handler decides during one step: the clock, the ids `uuid4`
    would draw, the file-system outcomes of an upload, the stored bytes of a requested file,
    which of a download's sends go through, and the peer's IP address.
   */
  datatype Outcomes = Outcomes(
    now: real,
    msgId: string,
    freshId: string,
    tempFileCreated: bool,
    chunkWritten: bool,
    fileMoved: bool,
    hashMatches: bool,
    storedFile: Option<seq<byte>>,
    sendAccepted: nat -> bool,
    peerIp: string)

  /** `value[key] == v` for a dict `value`. */
  predicate HasField(value: Json, key: string, v: Json)
  {
    value.JObject? && key in value.fields && value.fields[key] == v
  }

  /** `data.get(key)`: None (null) when the key is missing. */
  function Get(fields: map<string, Json>, key: string): (r: Json)
    ensures key !in fields ==> r == JNull
    ensures key in fields ==> r == fields[key]
  {
    if key in fields then fields[key] else JNull
  }

  // ------------------------------------------------------------------ chat validation

  /** `_validate_chat_message` */
  predicate ValidChat(clients: map<string, Client>, m: TCPMessage, senderId: string)
  {
    && senderId in clients
    && m.data.JObject?
    && Get(m.data.fields, "message").JStr?
    && Get(m.data.fields, "message").s != []
    && Strip(Get(m.data.fields, "message").s) != []
    && |Get(m.data.fields, "message").s| <= MaxChatLength
    && m.senderId == senderId
  }

  /**
    A chat message passes exactly when its sender is in the session and names itself, and
    its `message` entry is a string of at most 1000 characters that is not all whitespace.
   */
  lemma ValidChatMeans(clients: map<string, Client>, m: TCPMessage, senderId: string)
    ensures ValidChat(clients, m, senderId) <==>
              && senderId in clients && m.senderId == senderId
              && m.data.JObject? && "message" in m.data.fields && m.data.fields["message"].JStr?
              && |m.data.fields["message"].s| <= MaxChatLength
              && exists i :: 0 <= i < |m.data.fields["message"].s| && !IsSpace(m.data.fields["message"].s[i])
  {
    if m.data.JObject? && "message" in m.data.fields && m.data.fields["message"].JStr? {
      StripEmptyIffBlank(m.data.fields["message"].s);
    }
  }

  /** The text `_validate_chat_message` checked. */
  function ChatText(m: TCPMessage): (r: Option<string>)
    ensures r.Some? <==> m.data.JObject? && Get(m.data.fields, "message").JStr?
    ensures r.Some? ==> m.data.fields["message"] == JStr(r.value)
  {
    if m.data.JObject? && Get(m.data.fields, "message").JStr? then Some(Get(m.data.fields, "message").s) else None
  }

  /** `message.data['sender_username'] = …` on a dict: every other entry is kept. */
  function WithSenderUsername(m: TCPMessage, username: string): (r: TCPMessage)
    requires m.data.JObject?
    ensures HasField(r.data, "sender_username", JStr(username))
    ensures r.data.JObject? && r.data.fields.Keys == m.data.fields.Keys + {"sender_username"}
    ensures forall k :: k in m.data.fields && k != "sender_username" ==> r.data.fields[k] == m.data.fields[k]
    ensures r.msgType == m.msgType && r.senderId == m.senderId && r.timestamp == m.timestamp && r.messageId == m.messageId
  {
    m.(data := JObject(m.data.fields["sender_username" := JStr(username)]))
  }

  /** A validated chat message, tagged with its sender's name, is one the history keeps, with its text intact. */
  lemma ValidChatIsKept(clients: map<string, Client>, m: TCPMessage, senderId: string, username: string)
    requires m.msgType == Chat && senderId != ""
    requires ValidChat(clients, m, senderId)
    ensures KeptInHistory(WithSenderUsername(m, username))
    ensures ChatText(WithSenderUsername(m, username)) == ChatText(m)
  {
    var r := WithSenderUsername(m, username);
    assert "message" in r.data.fields;
  }

  /**
    The message the CHAT branch records and passes on: a valid one, tagged with the name of its
    sender; None for an invalid one. A tagged message is always one the history keeps.
   */
  function TaggedChat(clients: map<string, Client>, m: TCPMessage, senderId: string): (r: Option<TCPMessage>)
    requires m.msgType == Chat && (forall id :: id in clients ==> id != "")
    ensures r.Some? <==> ValidChat(clients, m, senderId)
    ensures r.Some? ==> KeptInHistory(r.value) && ChatText(r.value) == ChatText(m) && r.value.senderId == senderId
    ensures r.Some? ==> HasField(r.value.data, "sender_username", JStr(clients[senderId].username))
  {
    if ValidChat(clients, m, senderId) then
      ValidChatIsKept(clients, m, senderId, clients[senderId].username);
      Some(WithSenderUsername(m, clients[senderId].username))
    else None
  }

  // ------------------------------------------------------------------ broadcast targets

  /** The clients `_broadcast_tcp_message` tries: all of them but `exclude`, which "" (None) leaves out of play. */
  function BroadcastTargets(ids: set<string>, exclude: string): (r: set<string>)
    ensures r <= ids
    ensures exclude != "" ==> exclude !in r && ids <= r + {exclude}
    ensures exclude == "" ==> r == ids
  {
    if exclude == "" then ids else ids - {exclude}
  }

  /** A broadcast excluding a participant reaches every other participant and never that one. */
  lemma BroadcastNeverEchoes(ids: set<string>, sender: string, other: string)
    requires sender != "" && other in ids
    ensures other in BroadcastTargets(ids, sender) <==> other != sender
  {
  }

  /** The queued notices, each broadcast to everybody. */
  function BroadcastAll(msgs: seq<TCPMessage>): (r: seq<Outgoing>)
    ensures |r| == |msgs|
    ensures forall i :: 0 <= i < |r| ==> r[i] == Broadcast(msgs[i], "")
  {
    if msgs == [] then [] else [Broadcast(msgs[0], "")] + BroadcastAll(msgs[1..])
  }

  // ------------------------------------------------------------------ messages the server composes

  function ServerMessage(msgType: string, fields: map<string, Json>, now: real, msgId: string): (r: TCPMessage)
    ensures r.msgType == msgType && r.senderId == ServerId && r.data == JObject(fields)
  {
    NewTcpMessage(msgType, ServerId, JObject(fields), None, None, now, msgId)
  }

  function HeartbeatAckMessage(now: real, msgId: string): TCPMessage
  {
    ServerMessage(HeartbeatAck, map["status" := JStr("alive")], now, msgId)
  }

  function StatusUpdateMessage(clientId: string, video: Json, audio: Json, now: real, msgId: string): TCPMessage
  {
    ServerMessage(ParticipantStatusUpdate,
                  map["client_id" := JStr(clientId), "video_enabled" := video, "audio_enabled" := audio], now, msgId)
  }

  function ShutdownMessage(now: real, msgId: string): TCPMessage
  {
    ServerMessage(ServerShutdown, map["message" := JStr("Server is shutting down gracefully")], now, msgId)
  }

  /**
    The welcome to a joining client and the announcement to everybody else.
    `get_session_info` and `get_participant_list` are not part of this model: their results are parameters.
   */
  function JoinAnnouncements(clientId: string, username: string, sessionInfo: Json, participants: Json,
                             now: real, msgId: string): (r: seq<Outgoing>)
    requires clientId != ""
    ensures |r| == 2 && r[0].Reply? && r[1].Broadcast?
    ensures r[0].msg.msgType == Welcome && HasField(r[0].msg.data, "client_id", JStr(clientId))
    ensures r[1].msg.msgType == ParticipantJoined && r[1].exclude == clientId
    ensures HasField(r[1].msg.data, "client_id", JStr(clientId)) && HasField(r[1].msg.data, "username", JStr(username))
  {
    [Reply(ServerMessage(Welcome, map["client_id" := JStr(clientId), "session_info" := sessionInfo,
                                      "participants" := participants], now, msgId)),
     Broadcast(ServerMessage(ParticipantJoined, map["client_id" := JStr(clientId), "username" := JStr(username)],
                             now, msgId), clientId)]
  }

  /** `join_message.data.get('username', 'Unknown')`, for string-valued names. */
  function UsernameOf(data: Json): (r: string)
    ensures data.JObject? && "username" in data.fields && data.fields["username"].JStr? ==> r == data.fields["username"].s
    ensures !(data.JObject? && "username" in data.fields) ==> r == "Unknown"
  {
    if data.JObject? && "username" in data.fields && data.fields["username"].JStr? then data.fields["username"].s
    else "Unknown"
  }

  /** A media flag as `update_client_media_status` takes it: null keeps the old value. */
  function AsFlag(j: Json): (r: Option<bool>)
    ensures j == JNull <==> r.None?
    ensures j.JBool? ==> r == Some(j.b)
  {
    match j
    case JNull => None
    case JBool(b) => Some(b)
    case _ => Some(Truthy(j))
  }

  // ------------------------------------------------------------------ screen sharing, as written and as intended

  /** The gate of the SCREEN_SHARE branch as written: the sender must be the recorded screen sharer. */
  predicate SharerGate(activeScreenSharer: Option<string>, senderId: string)
  {
    activeScreenSharer == Some(senderId)
  }

  /**
    The evidently intended gate, the one `process_screen_frame` of the media relay applies:
    sharing is on and the sender holds the presenter role.
   */
  predicate PresenterGate(sharing: bool, presenter: Option<string>, senderId: string)
  {
    sharing && presenter == Some(senderId)
  }

  /** The frames the corrected branch relays: to everybody but the presenter who sent them. */
  function ScreenFrameOutgoing(sharing: bool, presenter: Option<string>, m: TCPMessage, senderId: string): (r: seq<Outgoing>)
    ensures r != [] <==> PresenterGate(sharing, presenter, senderId)
    ensures r != [] ==> r == [Broadcast(m, senderId)]
  {
    if PresenterGate(sharing, presenter, senderId) then [Broadcast(m, senderId)] else []
  }

  /**
    What the SCREEN_SHARE_START and SCREEN_SHARE_STOP branches evidently mean to send once the
    session has answered `ok`: the request is passed on to the other clients; a refused start
    is answered with `screen_share_error`, a refused stop with nothing.
   */
  function ScreenShareReplies(m: TCPMessage, senderId: string, ok: bool, reason: string, now: real, msgId: string)
    : (r: seq<Outgoing>)
    ensures ok ==> r == [Broadcast(m, senderId)]
    ensures !ok && m.msgType == ScreenShareStart ==>
              |r| == 1 && r[0].Reply? && r[0].msg.msgType == ScreenShareError && HasField(r[0].msg.data, "error", JStr(reason))
    ensures !ok && m.msgType != ScreenShareStart ==> r == []
  {
    if ok then [Broadcast(m, senderId)]
    else if m.msgType == ScreenShareStart then [Reply(ServerMessage(ScreenShareError, map["error" := JStr(reason)], now, msgId))]
    else []
  }

  // ------------------------------------------------------------------ file download

  /** `(filesize + 8191) // 8192`, the chunk count announced for a download. */
  function ChunkCount(filesize: int): (r: int)
    ensures filesize <= 0 ==> r <= 0
    ensures filesize > 0 ==> r > 0 && (r - 1) * DownloadChunkSize < filesize <= r * DownloadChunkSize
  {
    (filesize + DownloadChunkSize - 1) / DownloadChunkSize
  }

  /** The successive `f.read(8192)` results from chunk `k` on, stopping at `total` chunks or at the end of the file. */
  function FileChunks(content: seq<byte>, k: nat, total: int): (r: seq<seq<byte>>)
    decreases |content| - k * DownloadChunkSize
    ensures forall i :: 0 <= i < |r| ==> 0 < |r[i]| <= DownloadChunkSize
  {
    if k >= total || k * DownloadChunkSize >= |content| then []
    else
      var end := if (k + 1) * DownloadChunkSize <= |content| then (k + 1) * DownloadChunkSize else |content|;
      [content[k * DownloadChunkSize..end]] + FileChunks(content, k + 1, total)
  }

  function Flatten(chunks: seq<seq<byte>>): seq<byte>
  {
    if chunks == [] then [] else chunks[0] + Flatten(chunks[1..])
  }

  lemma FlattenCons(c: seq<byte>, rest: seq<seq<byte>>)
    ensures Flatten([c] + rest) == c + Flatten(rest)
  {
    assert ([c] + rest)[1..] == rest;
  }

  /**
    The chunks sent for a file, put back together, are the file cut at the announced size:
    nothing is lost, repeated or reordered.
   */
  lemma {:induction false} FileChunksCover(content: seq<byte>, k: nat, total: int)
    requires k * DownloadChunkSize <= |content|
    ensures var limit := if total <= k then k * DownloadChunkSize
                         else if total * DownloadChunkSize <= |content| then total * DownloadChunkSize else |content|;
            Flatten(FileChunks(content, k, total)) == content[k * DownloadChunkSize..limit]
    decreases |content| - k * DownloadChunkSize
  {
    if k >= total || k * DownloadChunkSize >= |content| {
    } else {
      var end := if (k + 1) * DownloadChunkSize <= |content| then (k + 1) * DownloadChunkSize else |content|;
      var rest := FileChunks(content, k + 1, total);
      FlattenCons(content[k * DownloadChunkSize..end], rest);
      if (k + 1) * DownloadChunkSize <= |content| {
        FileChunksCover(content, k + 1, total);
      } else {
        assert rest == [];
      }
    }
  }

  /** One FILE_DOWNLOAD_CHUNK message (the data travels as lower-case hex). */
  function DownloadChunkMessage(fileId: string, meta: FileMetadata, k: nat, total: int, chunk: seq<byte>,
                                now: real, msgId: string): (r: TCPMessage)
    ensures r.msgType == FileDownloadChunk && r.senderId == ServerId
    ensures HasField(r.data, "chunk_num", JInt(k)) && HasField(r.data, "chunk_data", JStr(Hex(chunk)))
  {
    ServerMessage(FileDownloadChunk,
                  map["file_id" := JStr(fileId), "chunk_num" := JInt(k), "total_chunks" := JInt(total),
                      "chunk_data" := JStr(Hex(chunk)), "chunk_size" := JInt(|chunk|),
                      "filename" := JStr(meta.filename), "filesize" := JInt(meta.filesize)], now, msgId)
  }

  /**
    The messages `_send_file_to_client` writes: the download chunks of the file in order,
    numbered from 0, stopping after the first send the connection refuses, or after the last
    chunk.
   */
  predicate ChunksSentUntilRefused(sent: seq<TCPMessage>, fileId: string, meta: FileMetadata, content: seq<byte>,
                                   accepted: nat -> bool, now: real, msgId: string)
  {
    var chunks := FileChunks(content, 0, ChunkCount(meta.filesize));
    && |sent| <= |chunks|
    && (forall i :: 0 <= i < |sent| ==>
          sent[i] == DownloadChunkMessage(fileId, meta, i, ChunkCount(meta.filesize), chunks[i], now, msgId))
    && (forall i :: 0 <= i < |sent| - 1 ==> accepted(i))
    && (|sent| < |chunks| ==> sent != [] && !accepted(|sent| - 1))
  }

  /** The messages of a run of outgoing items. */
  function MessagesOf(out: seq<Outgoing>): (r: seq<TCPMessage>)
    ensures |r| == |out| && forall i :: 0 <= i < |out| ==> r[i] == out[i].msg
  {
    seq(|out|, i requires 0 <= i < |out| => out[i].msg)
  }

  // ------------------------------------------------------------------ the handler

  class NetworkHandler {
    const session: SessionManager
    const monitor: PerformanceMonitor
    /** Created by `start_servers`, before any client can connect. */
    var relay: MediaRelay?
    var running: bool
    /** Whether `start_servers` has created the client thread pool (it does so before the relay). */
    var threadPool: bool

    ghost predicate Valid()
      reads this`relay, this`threadPool, session`clients, session`activePresenter, session`activeScreenSharer, session`uploads,
            if relay != null then {relay.mixer, relay.video} else {}
    {
      && session.Valid()
      && (relay != null ==> threadPool)
      && (relay != null ==> relay.session == session && relay.mixer.Valid() && relay.video.Valid())
    }

    /** `NetworkHandler(...)`: an empty session and no relay yet. */
    constructor()
      ensures Valid() && fresh(session) && fresh(monitor) && relay == null && !running && !threadPool
      ensures session.clients == map[] && !session.screenSharingActive && session.activePresenter.None?
      ensures monitor.trackers == map[]
    {
      session := new SessionManager();
      monitor := new PerformanceMonitor();
      relay := null;
      running := false;
      threadPool := false;
    }

    /** `start_servers`: the relay is created and started (its start never fails); the socket threads are not modelled. */
    method StartServers(now: real) returns (ok: bool)
      requires Valid()
      modifies this`relay, this`running, this`threadPool
      ensures Valid() && ok && running && threadPool
      ensures relay != null && fresh(relay) && fresh(relay.mixer) && relay.isRunning && relay.session == session
    {
      running := true;
      threadPool := true;
      var r := new MediaRelay(session);
      var started := r.StartRelay(now);
      relay := r;
      ok := true;
    }

    /**
      `stop_servers` as written: every client is told the server is going away and the loops
      stop, but once the thread pool exists the call `shutdown(wait=True, timeout=5)` raises
      TypeError (the executor's `shutdown` takes no `timeout`), so the relay is never stopped.
      Without a pool there is no relay either, so nothing is left to stop.
     */
    method StopServers(now: real, msgId: string) returns (out: seq<Outgoing>, raised: bool)
      requires Valid()
      modifies this`running
      ensures Valid() && !running
      ensures out == [Broadcast(ShutdownMessage(now, msgId), "")]
      ensures raised <==> threadPool
      ensures relay != null ==> raised && relay.isRunning == old(relay.isRunning)
    {
      out := [Broadcast(ShutdownMessage(now, msgId), "")];
      running := false;
      raised := threadPool;
    }

    /** `stop_servers` with the pool shut down as `shutdown(wait=True)`: the relay is stopped too. */
    method StopServersCorrected(now: real, msgId: string) returns (out: seq<Outgoing>)
      requires Valid()
      modifies this`running, if relay != null then {relay, relay.mixer} else {}
      ensures Valid() && !running
      ensures out == [Broadcast(ShutdownMessage(now, msgId), "")]
      ensures relay != null ==> !relay.isRunning
    {
      out := [Broadcast(ShutdownMessage(now, msgId), "")];
      running := false;
      if relay != null {
        relay.StopRelay();
      }
    }

    // ---------------------------------------------------------------- delivery

    /**
      `_send_tcp_message`: refused for a closed socket; otherwise the serialised message goes out
      framed like every TCP payload, if the connection takes it.
     */
    method SendTcpMessage(sock: Stream?, open: bool, c: Codec, msg: TCPMessage, accepted: bool) returns (ok: bool)
      modifies if sock != null then {sock} else {}
      ensures ok <==> sock != null && open && Frame(SerializeTcp(c, msg)).Ok? && accepted
      ensures sock != null ==>
                sock.written == if ok then old(sock.written) + Frame(SerializeTcp(c, msg)).value else old(sock.written)
      ensures sock != null ==> sock.pending == old(sock.pending)
    {
      if sock == null || !open {
        return false;
      }
      match Frame(SerializeTcp(c, msg))
      case Err(_) =>
        return false;
      case Ok(f) =>
        sock.SendAll(f, accepted);
        ok := accepted;
    }

    /**
      `_broadcast_tcp_message`: every client but `exclude` is tried in turn, whatever happened
      to the earlier ones. The follow-up for failed deliveries only removes clients that have
      left the session, and every client tried was taken from it, so it changes nothing here.
     */
    method BroadcastTcpMessage(exclude: string, delivered: string -> bool) returns (sent: set<string>, failed: set<string>)
      ensures sent == set id | id in BroadcastTargets(session.clients.Keys, exclude) && delivered(id)
      ensures failed == BroadcastTargets(session.clients.Keys, exclude) - sent
    {
      var order := Enumerate(session.clients.Keys);
      ghost var targets := BroadcastTargets(session.clients.Keys, exclude);
      sent, failed := {}, {};
      var k := 0;
      while k < |order|
        invariant 0 <= k <= |order|
        invariant sent == set i | 0 <= i < k && order[i] in targets && delivered(order[i]) :: order[i]
        invariant failed == set i | 0 <= i < k && order[i] in targets && !delivered(order[i]) :: order[i]
      {
        var id := order[k];
        if exclude != "" && id == exclude {
        } else if delivered(id) {
          sent := sent + {id};
        } else {
          failed := failed + {id};
        }
        k := k + 1;
      }
      assert forall id :: id in targets ==> id in order;
    }

    // ---------------------------------------------------------------- the branches of `_process_tcp_message`

    /** CHAT: a valid message is tagged with the sender's name, recorded, and passed to everybody else. */
    method HandleChat(m: TCPMessage, senderId: string) returns (out: seq<Outgoing>)
      requires Valid() && m.msgType == Chat
      modifies session`chatHistory
      ensures Valid()
      ensures TaggedChat(session.clients, m, senderId).None? ==> out == [] && session.chatHistory == old(session.chatHistory)
      ensures TaggedChat(session.clients, m, senderId).Some? ==>
                var tagged := TaggedChat(session.clients, m, senderId).value;
                && session.chatHistory == KeepLast(old(session.chatHistory) + [tagged], MaxChatHistory)
                && out == [Broadcast(tagged, senderId)]
    {
      var tagged := TaggedChat(session.clients, m, senderId);
      if tagged.None? {
        return [];
      }
      var raised := session.AddChatMessage(tagged.value);
      out := [Broadcast(tagged.value, senderId)];
    }

    /** HEARTBEAT: the sender's heartbeat time is refreshed and it is answered `alive`. */
    method HandleHeartbeat(senderId: string, now: real, msgId: string) returns (out: seq<Outgoing>)
      requires Valid()
      modifies session`clients
      ensures Valid()
      ensures senderId in old(session.clients) ==>
                session.clients == old(session.clients)[senderId := old(session.clients)[senderId].(lastHeartbeat := now)]
      ensures senderId !in old(session.clients) ==> session.clients == old(session.clients)
      ensures out == [Reply(HeartbeatAckMessage(now, msgId))]
    {
      var _ := session.UpdateClientHeartbeat(senderId, now);
      out := [Reply(HeartbeatAckMessage(now, msgId))];
    }

    /**
      SCREEN_SHARE_START as written: the session starts sharing for the presenter, then the
      unpacking of its boolean answer into a pair raises, so nothing is sent either way.
     */
    method HandleScreenShareStart(senderId: string, now: real) returns (out: seq<Outgoing>)
      requires Valid()
      modifies session`screenSharingActive, session`lastScreenFrameTime
      ensures Valid() && out == []
      ensures senderId in session.clients && session.activePresenter == Some(senderId) ==>
                session.screenSharingActive && session.lastScreenFrameTime == Some(now)
      ensures !(senderId in session.clients && session.activePresenter == Some(senderId)) ==>
                session.screenSharingActive == old(session.screenSharingActive)
    {
      var _ := session.StartScreenSharing(senderId, now);
      out := [];
    }

    /** SCREEN_SHARE_STOP as written: the session may stop sharing; nothing is sent either way. */
    method HandleScreenShareStop(senderId: string) returns (out: seq<Outgoing>)
      requires Valid()
      modifies session`screenSharingActive, session`lastScreenFrameTime
      ensures Valid() && out == []
      ensures old(session.screenSharingActive) && (senderId == "" || session.activePresenter == Some(senderId)) ==>
                !session.screenSharingActive
      ensures !(old(session.screenSharingActive) && (senderId == "" || session.activePresenter == Some(senderId))) ==>
                session.screenSharingActive == old(session.screenSharingActive)
    {
      var _ := session.StopScreenSharing(Some(senderId));
      out := [];
    }

    /** SCREEN_SHARE as written: relayed only from the recorded sharer, whom the session never records. */
    method HandleScreenFrame(m: TCPMessage, senderId: string) returns (out: seq<Outgoing>)
      requires Valid()
      ensures out == []
    {
      if SharerGate(session.activeScreenSharer, senderId) {
        out := [Broadcast(m, senderId)];
      } else {
        out := [];
      }
    }

    /** FILE_METADATA: the announced file is registered under its sender and an upload is opened for it. */
    method HandleFileMetadata(m: TCPMessage, senderId: string, env: Outcomes) returns (out: seq<Outgoing>)
      requires Valid()
      modifies session`uploads, session`sharedFiles
      ensures Valid() && out == []
      ensures var meta := AnnouncedFile(m.data, senderId, env.freshId, env.now);
              && (meta.Some? && IsValid(meta.value) ==>
                    && session.sharedFiles == old(session.sharedFiles)[meta.value.fileId := meta.value]
                    && (env.tempFileCreated <==> meta.value.fileId in session.uploads
                                                 && session.uploads[meta.value.fileId] == Upload(meta.value, 0, 0, env.now)))
              && (!(meta.Some? && IsValid(meta.value)) ==>
                    session.uploads == old(session.uploads) && session.sharedFiles == old(session.sharedFiles))
    {
      out := [];
      var meta := AnnouncedFile(m.data, senderId, env.freshId, env.now);
      if meta.None? {
        return;
      }
      var added := session.AddFileMetadata(meta.value);
      if added {
        var _, _ := session.StartFileUpload(meta.value, env.tempFileCreated, env.now);
      }
    }

    /**
      FILE_UPLOAD: a chunk with an id, a number, a total and hex data is handed to the session;
      when it completes the file, the queued `file_available` notice goes to everybody.
     */
    method HandleFileUpload(m: TCPMessage, env: Outcomes) returns (out: seq<Outgoing>)
      requires Valid()
      modifies session`uploads, session`sharedFiles, session`pendingBroadcasts
      ensures Valid()
      ensures !ChunkWellFormed(m.data) ==>
                out == [] && session.uploads == old(session.uploads) && session.sharedFiles == old(session.sharedFiles)
                && session.pendingBroadcasts == old(session.pendingBroadcasts)
      ensures ChunkWellFormed(m.data) && m.data.fields["file_id"].s !in old(session.uploads) ==>
                out == [] && session.uploads == old(session.uploads)
      ensures out != [] ==> session.pendingBroadcasts == [] && out == BroadcastAll(old(session.pendingBroadcasts) + [
                FileAvailableMessage(old(session.uploads)[m.data.fields["file_id"].s].metadata, env.now, env.msgId)])
    {
      out := [];
      if !ChunkWellFormed(m.data) {
        return;
      }
      var fileId := m.data.fields["file_id"].s;
      var total := m.data.fields["total_chunks"].i;
      var ok, _, complete := session.ProcessFileChunk(fileId, total, env.chunkWritten, env.fileMoved, env.hashMatches,
                                                      env.now, env.msgId);
      if ok && complete {
        var pending := session.GetPendingBroadcasts();
        out := BroadcastAll(pending);
      }
    }

    /** FILE_REQUEST: a known, stored file is sent to the requester chunk by chunk. */
    method HandleFileRequest(m: TCPMessage, env: Outcomes) returns (out: seq<Outgoing>)
      requires Valid()
      ensures (!m.data.JObject? || !Get(m.data.fields, "file_id").JStr? || Get(m.data.fields, "file_id").s !in session.sharedFiles
               || env.storedFile.None?) ==> out == []
      ensures forall i :: 0 <= i < |out| ==> out[i].Reply? && out[i].msg.msgType == FileDownloadChunk
      ensures m.data.JObject? && Truthy(Get(m.data.fields, "file_id")) && Get(m.data.fields, "file_id").JStr?
              && Get(m.data.fields, "file_id").s in session.sharedFiles && env.storedFile.Some? ==>
                var fileId := Get(m.data.fields, "file_id").s;
                ChunksSentUntilRefused(MessagesOf(out), fileId, session.sharedFiles[fileId], env.storedFile.value,
                                       env.sendAccepted, env.now, env.msgId)
    {
      out := [];
      if !m.data.JObject? || !Truthy(Get(m.data.fields, "file_id")) || !Get(m.data.fields, "file_id").JStr? {
        return;
      }
      var fileId := Get(m.data.fields, "file_id").s;
      if fileId !in session.sharedFiles || env.storedFile.None? {
        return;
      }
      var sent := SendFile(fileId, session.sharedFiles[fileId], env.storedFile.value, env.sendAccepted, env.now, env.msgId);
      out := seq(|sent|, i requires 0 <= i < |sent| => Reply(sent[i]));
      assert MessagesOf(out) == sent;
    }

    /**
      `_send_file_to_client` once the file is found: the chunks in order, stopping after the
      first send the connection refuses.
     */
    method SendFile(fileId: string, meta: FileMetadata, content: seq<byte>, accepted: nat -> bool, now: real, msgId: string)
      returns (sent: seq<TCPMessage>)
      ensures ChunksSentUntilRefused(sent, fileId, meta, content, accepted, now, msgId)
    {
      var total := ChunkCount(meta.filesize);
      var chunks := FileChunks(content, 0, total);
      sent := [];
      for k := 0 to |chunks|
        invariant |sent| == k
        invariant forall i :: 0 <= i < k ==> accepted(i) && sent[i] == DownloadChunkMessage(fileId, meta, i, total, chunks[i], now, msgId)
      {
        sent := sent + [DownloadChunkMessage(fileId, meta, k, total, chunks[k], now, msgId)];
        if !accepted(k) {
          return;
        }
      }
    }

    /** MEDIA_STATUS_UPDATE: the flags are stored and announced to everybody else. */
    method HandleMediaStatus(m: TCPMessage, senderId: string, now: real, msgId: string) returns (out: seq<Outgoing>)
      requires Valid() && m.data.JObject?
      modifies session`clients
      ensures Valid()
      ensures var video := Get(m.data.fields, "video_enabled");
              var audio := Get(m.data.fields, "audio_enabled");
              && out == [Broadcast(StatusUpdateMessage(senderId, video, audio, now, msgId), senderId)]
              && (senderId in old(session.clients) ==>
                    session.clients == old(session.clients)[senderId := old(session.clients)[senderId].(
                      videoEnabled := if AsFlag(video).Some? then AsFlag(video).value else old(session.clients)[senderId].videoEnabled,
                      audioEnabled := if AsFlag(audio).Some? then AsFlag(audio).value else old(session.clients)[senderId].audioEnabled)])
              && (senderId !in old(session.clients) ==> session.clients == old(session.clients))
    {
      var video := Get(m.data.fields, "video_enabled");
      var audio := Get(m.data.fields, "audio_enabled");
      var _ := session.UpdateClientMediaStatus(senderId, AsFlag(video), AsFlag(audio));
      out := [Broadcast(StatusUpdateMessage(senderId, video, audio, now, msgId), senderId)];
    }

    /** UDP_ADDRESS_UPDATE: the address is the peer's real IP with the port the client reports, if it reports one. */
    method HandleUdpAddress(m: TCPMessage, senderId: string, peerIp: string) returns (out: seq<Outgoing>)
      requires Valid() && m.data.JObject?
      modifies session`clients
      ensures Valid() && out == []
      ensures var port := Get(m.data.fields, "udp_port");
              && (port.JInt? && port.i != 0 && senderId in old(session.clients) ==>
                    session.clients == old(session.clients)[senderId := old(session.clients)[senderId].(udpAddress := Some((peerIp, port.i)))])
              && (!(port.JInt? && port.i != 0 && senderId in old(session.clients)) ==> session.clients == old(session.clients))
    {
      out := [];
      var port := Get(m.data.fields, "udp_port");
      if port.JInt? && Truthy(port) {
        var _ := session.UpdateClientUdpAddress(senderId, (peerIp, port.i));
      }
    }

    /** `_process_tcp_message`: one branch per message type; other types, PRESENTER_REQUEST among them, are only logged. */
    method ProcessTcpMessage(m: TCPMessage, senderId: string, env: Outcomes) returns (out: seq<Outgoing>)
      requires Valid()
      modifies session
      ensures Valid()
      ensures m.msgType !in HandledTypes ==> out == [] && unchanged(session)
      ensures m.msgType in {ScreenShare, ScreenShareStart, ScreenShareStop, FileMetadataType, UdpAddressUpdate} ==> out == []
      ensures m.msgType == Chat ==> (out != [] <==> ValidChat(old(session.clients), m, senderId))
      ensures m.msgType in {Chat, MediaStatusUpdate} ==> forall o :: o in out ==> o == Broadcast(o.msg, senderId)
      ensures m.msgType == Heartbeat ==> out == [Reply(HeartbeatAckMessage(env.now, env.msgId))]
    {
      out := [];
      if m.msgType == Chat {
        out := HandleChat(m, senderId);
      } else if m.msgType == Heartbeat {
        out := HandleHeartbeat(senderId, env.now, env.msgId);
      } else if m.msgType == ScreenShareStart {
        out := HandleScreenShareStart(senderId, env.now);
      } else if m.msgType == ScreenShareStop {
        out := HandleScreenShareStop(senderId);
      } else if m.msgType == ScreenShare {
        out := HandleScreenFrame(m, senderId);
      } else if m.msgType == FileMetadataType {
        out := HandleFileMetadata(m, senderId, env);
      } else if m.msgType == FileUpload {
        out := HandleFileUpload(m, env);
      } else if m.msgType == FileRequest {
        out := HandleFileRequest(m, env);
      } else if m.msgType == MediaStatusUpdate {
        if m.data.JObject? {
          out := HandleMediaStatus(m, senderId, env.now, env.msgId);
        }
      } else if m.msgType == UdpAddressUpdate {
        if m.data.JObject? {
          out := HandleUdpAddress(m, senderId, env.peerIp);
        }
      }
    }

    // ---------------------------------------------------------------- connections

    /**
      The part of `_handle_tcp_client` before the welcome: read one frame, which must parse as
      a valid CLIENT_JOIN message, and register its sender under a new id.
     */
    method AcceptJoin(c: Codec, sock: Stream, env: Outcomes) returns (joined: Option<string>)
      requires Valid()
      requires env.freshId != "" && env.freshId !in session.clients
      modifies session`clients, session`chatHistory, sock`pending
      ensures Valid()
      ensures joined.Some? <==> FirstJoin(c, old(sock.pending), env.now, env.msgId).Some?
      ensures joined.Some? ==>
                && joined.value == env.freshId
                && session.clients == old(session.clients)[env.freshId := Client(env.freshId,
                     UsernameOf(FirstJoin(c, old(sock.pending), env.now, env.msgId).value.data), None, false, false, false, env.now, env.now)]
      ensures joined.None? ==> session.clients == old(session.clients)
    {
      var initial := ReceiveFrame(sock);
      var join := JoinRequest(c, initial, env.now, env.msgId);
      if join.None? {
        return None;
      }
      var id := session.AddClient(UsernameOf(join.value.data), env.freshId, env.now, env.msgId);
      joined := Some(id);
    }

    /**
      `_handle_tcp_client` as written: once the relay exists, the call to its missing
      `cleanup_stale_audio_streams` raises right after the client is registered, so the new
      client gets no welcome, nobody hears of it, and no message loop is started for it.
     */
    method HandleTcpClient(c: Codec, sock: Stream, env: Outcomes, sessionInfo: Json, participants: Json)
      returns (clientId: Option<string>, out: seq<Outgoing>, loopStarted: bool)
      requires Valid()
      requires env.freshId != "" && env.freshId !in session.clients
      modifies session`clients, session`chatHistory, sock`pending
      ensures Valid()
      ensures clientId.Some? <==> FirstJoin(c, old(sock.pending), env.now, env.msgId).Some?
      ensures clientId.Some? ==> clientId.value == env.freshId && clientId.value in session.clients
      ensures relay != null ==> out == [] && !loopStarted
      ensures relay == null ==> (loopStarted <==> clientId.Some?)
      ensures relay == null && clientId.Some? ==>
                out == JoinAnnouncements(clientId.value, session.clients[clientId.value].username, sessionInfo, participants,
                                         env.now, env.msgId)
    {
      clientId := AcceptJoin(c, sock, env);
      out, loopStarted := [], false;
      if clientId.None? {
        return;
      }
      if relay != null {
        return;
      }
      out := JoinAnnouncements(clientId.value, session.clients[clientId.value].username, sessionInfo, participants,
                               env.now, env.msgId);
      loopStarted := true;
    }

    /** `_handle_tcp_client` without the call to the missing method: every accepted join is welcomed and served. */
    method HandleTcpClientCorrected(c: Codec, sock: Stream, env: Outcomes, sessionInfo: Json, participants: Json)
      returns (clientId: Option<string>, out: seq<Outgoing>, loopStarted: bool)
      requires Valid()
      requires env.freshId != "" && env.freshId !in session.clients
      modifies session`clients, session`chatHistory, sock`pending
      ensures Valid()
      ensures clientId.Some? <==> FirstJoin(c, old(sock.pending), env.now, env.msgId).Some?
      ensures loopStarted <==> clientId.Some?
      ensures clientId.None? ==> out == [] && session.clients == old(session.clients)
      ensures clientId.Some? ==>
                && clientId.value == env.freshId && clientId.value in session.clients
                && out == JoinAnnouncements(clientId.value, session.clients[clientId.value].username, sessionInfo,
                                            participants, env.now, env.msgId)
    {
      clientId := AcceptJoin(c, sock, env);
      out, loopStarted := [], false;
      if clientId.None? {
        return;
      }
      out := JoinAnnouncements(clientId.value, session.clients[clientId.value].username, sessionInfo, participants,
                               env.now, env.msgId);
      loopStarted := true;
    }

    /**
      One turn of `_handle_client_messages`: a missing or empty frame ends the loop; a frame
      that does not parse is skipped; anything else is dispatched.
     */
    method ClientMessageStep(c: Codec, sock: Stream, clientId: string, env: Outcomes)
      returns (proceed: bool, out: seq<Outgoing>)
      requires Valid()
      modifies session, sock`pending
      ensures Valid()
      ensures !old(running) ==> !proceed && out == []
      ensures old(running) ==> (proceed <==> Unframe(old(sock.pending)).Some? && Unframe(old(sock.pending)).value.0 != [])
    {
      if !running {
        return false, [];
      }
      var data := ReceiveFrame(sock);
      if data.None? || data.value == [] {
        return false, [];
      }
      proceed, out := true, [];
      match DeserializeTcpMessage(c, data.value, env.now, env.msgId)
      case Err(_) =>
      case Ok(m) =>
        out := ProcessTcpMessage(m, clientId, env);
    }

    /**
      `_cleanup_client`: a client still in the session is removed with a notice, its media
      streams are dropped, and the queued notices go to everybody.
     */
    method CleanupClient(clientId: string, now: real, msgId: string) returns (out: seq<Outgoing>)
      requires Valid()
      modifies session`clients, session`chatHistory, session`activePresenter, session`activeScreenSharer,
               session`screenSharingActive, session`pendingBroadcasts,
               if relay != null then {relay.mixer, relay.video} else {}
      ensures Valid()
      ensures clientId !in old(session.clients) ==> out == [] && session.clients == old(session.clients)
      ensures clientId in old(session.clients) ==>
                && session.clients == old(session.clients) - {clientId}
                && session.pendingBroadcasts == []
                && out == BroadcastAll(old(session.pendingBroadcasts) +
                            [CreateClientDisconnectMessage(clientId, old(session.clients)[clientId].username,
                                                           "Client disconnected", now, msgId)])
                && (relay != null ==> clientId !in relay.mixer.clientBuffers && clientId !in relay.video.streams)
    {
      out := [];
      if clientId !in session.clients {
        return;
      }
      var pending := LeaveSession(clientId, now, msgId);
      DropMediaStreams(clientId);
      out := BroadcastAll(pending);
    }

    /** The session half of `_cleanup_client`: the client is removed with a notice and the queue is drained. */
    method LeaveSession(clientId: string, now: real, msgId: string) returns (pending: seq<TCPMessage>)
      requires session.Valid() && clientId in session.clients
      modifies session`clients, session`chatHistory, session`activePresenter, session`activeScreenSharer,
               session`screenSharingActive, session`pendingBroadcasts
      ensures session.Valid()
      ensures session.clients == old(session.clients) - {clientId} && session.pendingBroadcasts == []
      ensures pending == old(session.pendingBroadcasts) +
                [CreateClientDisconnectMessage(clientId, old(session.clients)[clientId].username, "Client disconnected", now, msgId)]
    {
      var _ := session.GracefulClientRemoval(clientId, "Client disconnected", now, msgId);
      pending := session.GetPendingBroadcasts();
    }

    /** `remove_client_audio_stream` and `remove_client_video_stream`, when there is a relay. */
    method DropMediaStreams(clientId: string)
      requires relay != null ==> relay.mixer.Valid() && relay.video.Valid()
      modifies if relay != null then {relay.mixer, relay.video} else {}
      ensures relay != null ==> relay.mixer.Valid() && relay.video.Valid()
      ensures relay != null ==> relay.mixer.clientBuffers == old(relay.mixer.clientBuffers) - {clientId}
                                && relay.video.streams == old(relay.video.streams) - {clientId}
    {
      if relay != null {
        relay.RemoveClientAudioStream(clientId);
        relay.RemoveClientVideoStream(clientId);
      }
    }

    /**
      `_handle_udp_packet`: a valid audio or video packet is counted by the loss tracker (with
      its own sequence number as the expected one) and handed to the relay.
     */
    method HandleUdpPacket(c: Codec, data: seq<byte>, delivered: string -> bool, now: real) returns (sent: set<string>)
      requires Valid()
      modifies monitor, if relay != null then {relay, relay.mixer, relay.video} else {}
      ensures Valid()
      ensures DeserializeUdpPacket(c, data, now).Err? ==> sent == {} && monitor.trackers == old(monitor.trackers)
      ensures DeserializeUdpPacket(c, data, now).Ok? ==>
                var p := DeserializeUdpPacket(c, data, now).value;
                && monitor.trackers == old(monitor.trackers)[p.senderId := TrackAsWritten(
                     if p.senderId in old(monitor.trackers) then old(monitor.trackers)[p.senderId] else NewTracker, p.sequenceNum)]
                && p.senderId !in sent
                && (p.packetType == Audio || relay == null ==> sent == {})
      // audio joins the sender's mixer buffer while the relay runs
      ensures DeserializeUdpPacket(c, data, now).Ok? && relay != null && DeserializeUdpPacket(c, data, now).value.packetType == Audio ==>
                relay.mixer.clientBuffers == if old(relay.isRunning) then Buffered(old(relay.mixer.clientBuffers), DeserializeUdpPacket(c, data, now).value)
                                             else old(relay.mixer.clientBuffers)
      // video goes to every reachable client with a UDP address other than its sender
      ensures DeserializeUdpPacket(c, data, now).Ok? && relay != null && old(relay.isRunning) ==>
                var p := DeserializeUdpPacket(c, data, now).value;
                p.packetType != Audio && SerializeUdp(c, p).Ok? ==>
                  sent == set id | id in VideoTargets(session.clients, p.senderId) && delivered(id)
    {
      var r := DeserializeUdpPacket(c, data, now);
      if r.Err? {
        return {};
      }
      sent := ProcessUdpPacket(c, r.value, delivered, now);
    }

    /** `_process_audio_packet` and `_process_video_packet`: the packet is tracked, then relayed. */
    method ProcessUdpPacket(c: Codec, p: UDPPacket, delivered: string -> bool, now: real) returns (sent: set<string>)
      requires Valid()
      modifies monitor, if relay != null then {relay, relay.mixer, relay.video} else {}
      ensures Valid()
      ensures monitor.trackers == old(monitor.trackers)[p.senderId := TrackAsWritten(
                if p.senderId in old(monitor.trackers) then old(monitor.trackers)[p.senderId] else NewTracker, p.sequenceNum)]
      ensures p.senderId !in sent
      ensures p.packetType == Audio || relay == null ==> sent == {}
      ensures relay != null && p.packetType == Audio ==>
                relay.mixer.clientBuffers == if old(relay.isRunning) then Buffered(old(relay.mixer.clientBuffers), p)
                                             else old(relay.mixer.clientBuffers)
      ensures relay != null && p.packetType != Audio && old(relay.isRunning) && SerializeUdp(c, p).Ok? ==>
                sent == set id | id in VideoTargets(session.clients, p.senderId) && delivered(id)
    {
      monitor.TrackPacketLoss(p.senderId, p.sequenceNum, p.sequenceNum);
      sent := RelayUdpPacket(c, p, delivered, now);
    }

    /** `media_relay.process_audio_packet` on a started server. */
    method RelayAudio(p: UDPPacket)
      requires Valid() && relay != null
      modifies relay`audioPacketsProcessed, relay.mixer`clientBuffers
      ensures Valid()
      ensures relay.mixer.clientBuffers == if relay.isRunning then Buffered(old(relay.mixer.clientBuffers), p)
                                           else old(relay.mixer.clientBuffers)
    {
      relay.ProcessAudioPacket(p);
    }

    /** The relay half of `_process_audio_packet` and `_process_video_packet`. */
    method RelayUdpPacket(c: Codec, p: UDPPacket, delivered: string -> bool, now: real) returns (sent: set<string>)
      requires Valid()
      modifies if relay != null then {relay, relay.mixer, relay.video} else {}
      ensures Valid()
      ensures p.senderId !in sent
      ensures p.packetType == Audio || relay == null ==> sent == {}
      ensures relay != null && p.packetType == Audio ==>
                relay.mixer.clientBuffers == if old(relay.isRunning) then Buffered(old(relay.mixer.clientBuffers), p)
                                             else old(relay.mixer.clientBuffers)
      ensures relay != null && p.packetType != Audio && old(relay.isRunning) && SerializeUdp(c, p).Ok? ==>
                sent == set id | id in VideoTargets(session.clients, p.senderId) && delivered(id)
    {
      sent := {};
      if relay != null {
        if p.packetType == Audio {
          RelayAudio(p);
        } else {
          sent := relay.ProcessVideoPacket(c, p, delivered, now);
        }
      }
    }

    /** One turn of `_heartbeat_monitor_loop`: silent clients are removed and their notices go to everybody. */
    method HeartbeatMonitorStep(now: real, msgId: string) returns (out: seq<Outgoing>, removed: seq<string>)
      requires Valid()
      modifies session`clients, session`chatHistory, session`activePresenter, session`activeScreenSharer,
               session`screenSharingActive, session`pendingBroadcasts
      ensures Valid()
      ensures !running ==> out == [] && removed == [] && session.clients == old(session.clients)
      ensures running ==> forall id :: id in removed <==> id in old(session.InactiveClients(HeartbeatTimeout, now))
      ensures running ==> forall id :: id in session.clients <==>
                id in old(session.clients) && id !in old(session.InactiveClients(HeartbeatTimeout, now))
      ensures running ==> session.chatHistory == old(session.chatHistory) + LeaveMessages(removed, now, msgId)
      ensures running && removed == [] ==> out == [] && session.pendingBroadcasts == old(session.pendingBroadcasts)
      // the removed clients' notices, behind whatever was already queued, go to everybody and leave the queue empty
      ensures running && removed != [] ==>
                && (forall i :: 0 <= i < |removed| ==> removed[i] in old(session.clients))
                && out == BroadcastAll(old(session.pendingBroadcasts)
                                       + DisconnectNotices(removed, old(session.clients), "Connection timeout", now, msgId))
                && session.pendingBroadcasts == []
    {
      out, removed := [], [];
      if !running {
        return;
      }
      removed := session.CleanupInactiveClients(HeartbeatTimeout, now, msgId);
      if removed != [] {
        var pending := session.GetPendingBroadcasts();
        out := BroadcastAll(pending);
      }
    }
  }

  /** `FileMetadata.from_dict(message.data)` with the sender put in as uploader; None where it raises. */
  function AnnouncedFile(data: Json, senderId: string, freshId: string, now: real): (r: Option<FileMetadata>)
    ensures r.Some? <==> data.JObject? && FromDict(data.fields, freshId, now).Ok?
    ensures r.Some? ==> r.value.uploaderId == senderId && r.value.fileId == FromDict(data.fields, freshId, now).value.fileId
  {
    if data.JObject? && FromDict(data.fields, freshId, now).Ok? then
      Some(FromDict(data.fields, freshId, now).value.(uploaderId := senderId))
    else None
  }

  /** The first frame's payload, if it is a non-empty, valid CLIENT_JOIN message. */
  function JoinRequest(c: Codec, payload: Option<seq<byte>>, now: real, msgId: string): (r: Option<TCPMessage>)
    ensures r.Some? ==> r.value.msgType == ClientJoin && ValidTcpMessage(r.value)
    ensures payload.None? || payload.value == [] ==> r.None?
  {
    if payload.None? || payload.value == [] then None
    else match DeserializeTcpMessage(c, payload.value, now, msgId)
      case Err(_) => None
      case Ok(m) => if m.msgType == ClientJoin then Some(m) else None
  }

  /** The join message a connection opens with, read off the bytes it sends. */
  function FirstJoin(c: Codec, stream: seq<byte>, now: real, msgId: string): (r: Option<TCPMessage>)
    ensures Unframe(stream).None? ==> r.None?
  {
    JoinRequest(c, if Unframe(stream).Some? then Some(Unframe(stream).value.0) else None, now, msgId)
  }

  // ------------------------------------------------------------------ the three defects, exhibited

  /**
    Once the servers are started, a connection that opens with a proper join is registered,
    yet never welcomed, never announced and never served.
   */
  method StartedServerNeverWelcomes(c: Codec, incoming: seq<byte>, env: Outcomes, sessionInfo: Json, participants: Json)
    returns (registered: bool, welcomed: bool)
    requires env.freshId != ""
    ensures registered <==> FirstJoin(c, incoming, env.now, env.msgId).Some?
    ensures !welcomed
  {
    var h := new NetworkHandler();
    var _ := h.StartServers(env.now);
    var sock := new Stream(incoming);
    var id, out, served := h.HandleTcpClient(c, sock, env, sessionInfo, participants);
    registered := id.Some?;
    welcomed := out != [] || served;
  }

  /**
    A started server that is stopped keeps its media relay running, because stopping the
    thread pool raises first; the corrected shutdown stops the relay.
   */
  method StoppedServerKeepsRelayRunning(now: real, msgId: string)
    returns (relayRunning: bool, relayRunningWhenCorrected: bool)
    ensures relayRunning && !relayRunningWhenCorrected
  {
    var h := new NetworkHandler();
    var _ := h.StartServers(now);
    var _, _ := h.StopServers(now, msgId);
    relayRunning := h.relay.isRunning;
    var g := new NetworkHandler();
    var _ := g.StartServers(now);
    var _ := g.StopServersCorrected(now, msgId);
    relayRunningWhenCorrected := g.relay.isRunning;
  }

  /** The corrected handshake, on the same started server, welcomes and serves every registered client. */
  method StartedServerWelcomesWhenCorrected(c: Codec, incoming: seq<byte>, env: Outcomes, sessionInfo: Json, participants: Json)
    returns (registered: bool, welcomed: bool)
    requires env.freshId != ""
    ensures registered <==> FirstJoin(c, incoming, env.now, env.msgId).Some?
    ensures welcomed <==> registered
  {
    var h := new NetworkHandler();
    var _ := h.StartServers(env.now);
    var sock := new Stream(incoming);
    var id, out, served := h.HandleTcpClientCorrected(c, sock, env, sessionInfo, participants);
    registered := id.Some?;
    welcomed := out != [] && served;
  }

  /**
    A presenter starts sharing and sends a frame: the start is announced to nobody and the
    frame is dropped, where the corrected branches pass both on to the other participants.
   */
  method PresenterIsNeverRelayed(start: TCPMessage, frame: TCPMessage)
    returns (sharing: bool, startOut: seq<Outgoing>, frameOut: seq<Outgoing>,
             startIntended: seq<Outgoing>, frameIntended: seq<Outgoing>)
    ensures sharing
    ensures startOut == [] && frameOut == []
    ensures startIntended == [Broadcast(start, "c1")] && frameIntended == [Broadcast(frame, "c1")]
  {
    var h := new NetworkHandler();
    var id := h.session.AddClient("alice", "c1", 0.0, "m1");
    var granted, _ := h.session.RequestPresenterRole(id);
    startOut := h.HandleScreenShareStart(id, 1.0);
    sharing := h.session.screenSharingActive;
    startIntended := ScreenShareReplies(start, id, sharing, "", 1.0, "m2");
    frameOut := h.HandleScreenFrame(frame, id);
    frameIntended := ScreenFrameOutgoing(h.session.screenSharingActive, h.session.activePresenter, frame, id);
  }

  /** A participant without the presenter role asks to share: as written it hears nothing back. */
  method RefusedStartIsNeverAnswered(start: TCPMessage) returns (out: seq<Outgoing>, intended: seq<Outgoing>)
    requires start.msgType == ScreenShareStart
    ensures out == []
    ensures |intended| == 1 && intended[0].Reply? && intended[0].msg.msgType == ScreenShareError
  {
    var h := new NetworkHandler();
    var id := h.session.AddClient("bob", "c2", 0.0, "m1");
    out := h.HandleScreenShareStart(id, 1.0);
    intended := ScreenShareReplies(start, id, h.session.screenSharingActive, "Only the presenter can share", 1.0, "m2");
  }

  /** The message types `_process_tcp_message` has a branch for. */
  const HandledTypes: set<string> := {Chat, Heartbeat, ScreenShareStart, ScreenShareStop, ScreenShare, FileMetadataType,
                                      FileUpload, FileRequest, MediaStatusUpdate, UdpAddressUpdate}

  /**
    The FILE_UPLOAD fields the branch can use: a string id, a number, a non-zero integer total
    and hex data (`all([...])` and `bytes.fromhex` refuse the rest).
   */
  predicate ChunkWellFormed(data: Json)
  {
    && data.JObject?
    && Get(data.fields, "file_id").JStr? && Get(data.fields, "file_id").s != ""
    && Get(data.fields, "chunk_num") != JNull
    && Get(data.fields, "total_chunks").JInt? && Get(data.fields, "total_chunks").i != 0
    && Get(data.fields, "chunk_data").JStr? && Get(data.fields, "chunk_data").s != ""
    && SpacedHexText(Get(data.fields, "chunk_data").s)
  }

  /** Chunk `i` of a file as `f.read(8192)` returns it, the last one possibly short. */
  function ChunkAt(content: seq<byte>, i: nat): (r: seq<byte>)
    requires i * DownloadChunkSize < |content|
  {
    content[i * DownloadChunkSize..if (i + 1) * DownloadChunkSize <= |content| then (i + 1) * DownloadChunkSize else |content|]
  }

  /**
    The chunks from `k` on are the consecutive chunks of the file, and they stop exactly at the
    announced count or at the end of the file, whichever comes first.
   */
  lemma {:induction false} FileChunksShape(content: seq<byte>, k: nat, total: int)
    ensures var r := FileChunks(content, k, total);
            && (forall j :: 0 <= j < |r| ==> k + j < total && (k + j) * DownloadChunkSize < |content| && r[j] == ChunkAt(content, k + j))
            && (k + |r| >= total || (k + |r|) * DownloadChunkSize >= |content|)
            && (r != [] ==> k + |r| <= total && (k + |r| - 1) * DownloadChunkSize < |content|)
    decreases |content| - k * DownloadChunkSize
  {
    if k >= total || k * DownloadChunkSize >= |content| {
    } else {
      FileChunksShape(content, k + 1, total);
      var r := FileChunks(content, k, total);
      var rest := FileChunks(content, k + 1, total);
      assert r == [ChunkAt(content, k)] + rest;
      forall j | 0 <= j < |r|
        ensures k + j < total && (k + j) * DownloadChunkSize < |content| && r[j] == ChunkAt(content, k + j)
      {
        if j > 0 {
          assert r[j] == rest[j - 1];
        }
      }
    }
  }
}
