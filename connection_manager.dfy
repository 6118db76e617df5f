/**
  The client's link to the server, client/connection_manager.py: the connection status machine,
  the join handshake, sending chat, media and screen-sharing control messages, the shared UDP
  sequence counter, the participant table kept from server notices, callback dispatch, and the
  handling of a lost connection.

  Sockets and threads are not modelled. What the network does is a parameter: whether the TCP
  connect succeeds, whether a send succeeds, what the welcome reply was. What the manager hands
  to the network is recorded: `sentTcp` and `sentUdp`. Callback invocations are recorded by the
  name they were registered under in `dispatched`, status-callback calls in `statusEvents`.
 */
module ConnectionManagerModel {
  import opened Wrappers
  import opened Bytes
  import opened JsonModel
  import opened Text
  import opened Messages
  import opened HexText
  import NetworkHandlerModel

  /** `ConnectionStatus` */
  datatype Status = Disconnected | Connecting | Connected | Reconnecting | Error

  /** `max_reconnect_attempts` */
  const MaxReconnectAttempts: nat := 5
  /** The cap on the doubling reconnect delay, in seconds. */
  const MaxReconnectDelay: real := 30.0
  /** `send_chat_message` truncates longer texts to this many characters. */
  const MaxChatText: nat := 1000
  /** `send_screen_frame` refuses frames larger than 1 MiB. */
  const MaxScreenFrameSize: nat := 1024 * 1024
  /** Attempts made by `send_screen_frame`. */
  const ScreenFrameRetries: nat := 2
  /** Attempts made by the presenter and screen-sharing control senders. */
  const ControlRetries: nat := 3

  /** Callback names the manager notifies about the connection itself. */
  const ScreenSharingConnectionLost := "screen_sharing_connection_lost"
  const ConnectionLostName := "connection_lost"
  const ScreenSharingReconnected := "screen_sharing_reconnected"
  const ConnectionRestored := "connection_restored"
  const ScreenSharingConnectionFailed := "screen_sharing_connection_failed"
  const ConnectionFailedName := "connection_failed"

  /** What `connect` keeps from the server's welcome. */
  datatype WelcomeInfo = WelcomeInfo(clientId: Option<string>, sessionInfo: Json, participants: map<string, Json>)

  /**
    What the network does during one `connect`: whether the TCP connect succeeds, whether the UDP
    socket can be bound, whether the join message is sent, and the welcome reply as
    `deserialize_tcp_message` returned it (an error also where nothing arrived). The temporary
    sender id, the local UDP address, the clock and the message id are inputs too.
   */
  datatype ConnectIO = ConnectIO(tcpConnects: bool, udpReady: bool, joinSent: bool,
                                 welcome: Result<TCPMessage, string>, tempId: string,
                                 localHost: string, localPort: int, now: real, freshId: string)

  /** The reason part of the `(bool, str)` pairs returned by the screen-sharing senders. */
  datatype SendOutcome = Sent | NotConnected | NoClientId | EmptyFrame | FrameTooLarge | SendFailed

  /** `data.get(key)` on a message's object. */
  function Get(fields: map<string, Json>, key: string): Json
  {
    if key in fields then fields[key] else JNull
  }

  /** `data.get(key, default)` */
  function GetOr(fields: map<string, Json>, key: string, default: Json): Json
  {
    if key in fields then fields[key] else default
  }

  /** `sender_id` as sent: a missing client id is written as the empty string. */
  function SenderOf(clientId: Option<string>): string
  {
    if clientId.Some? then clientId.value else ""
  }

  // ---------------------------------------------------------------- welcome

  /** The key `p['client_id']` gives for one entry of the welcome's participant list, where it is a string. */
  function ParticipantId(p: Json): Option<string>
  {
    if p.JObject? && "client_id" in p.fields && p.fields["client_id"].JStr? then Some(p.fields["client_id"].s) else None
  }

  /** `v` is the last entry of `items` under id `k`. */
  ghost predicate LastWithId(items: seq<Json>, k: string, v: Json)
  {
    exists i :: 0 <= i < |items| && items[i] == v && ParticipantId(v) == Some(k)
                && forall j :: i < j < |items| ==> ParticipantId(items[j]) != Some(k)
  }

  /** Every entry of the welcome's participant list has a string id. */
  predicate AllIdentified(items: seq<Json>)
  {
    forall i :: 0 <= i < |items| ==> ParticipantId(items[i]).Some?
  }

  /**
    `{p['client_id']: p for p in participants_data}`: fails when an entry has no string id;
    otherwise the keys are exactly the entries' ids.
   */
  function ParticipantsFromList(items: seq<Json>): (r: Option<map<string, Json>>)
    ensures r.Some? <==> AllIdentified(items)
    ensures r.Some? ==> forall i :: 0 <= i < |items| ==> ParticipantId(items[i]).value in r.value
    ensures r.Some? ==> forall k :: k in r.value ==> ParticipantId(r.value[k]) == Some(k)
  {
    if items == [] then Some(map[])
    else
      var front := items[..|items| - 1];
      var last := items[|items| - 1];
      var table := ParticipantsFromList(front);
      assert forall i :: 0 <= i < |front| ==> front[i] == items[i];
      if table.None? || ParticipantId(last).None? then None
      else Some(table.value[ParticipantId(last).value := last])
  }

  /** An entry that was last under its id stays last when an entry with another id follows. */
  lemma LastWithIdExtends(front: seq<Json>, last: Json, k: string, v: Json)
    requires LastWithId(front, k, v) && ParticipantId(last) != Some(k)
    ensures LastWithId(front + [last], k, v)
  {
    var items := front + [last];
    var i :| 0 <= i < |front| && front[i] == v && ParticipantId(v) == Some(k)
             && forall j :: i < j < |front| ==> ParticipantId(front[j]) != Some(k);
    assert items[i] == v;
    forall j | i < j < |items|
      ensures ParticipantId(items[j]) != Some(k)
    {
      if j < |front| {
        assert items[j] == front[j];
      } else {
        assert items[j] == last;
      }
    }
  }

  /** The final entry is the last under its own id. */
  lemma LastWithIdAtEnd(front: seq<Json>, last: Json, k: string)
    requires ParticipantId(last) == Some(k)
    ensures LastWithId(front + [last], k, last)
  {
    var items := front + [last];
    assert items[|items| - 1] == last;
  }

  /** Where ids repeat, the entry kept under an id is the last one in the list. */
  lemma {:induction false} ParticipantsFromListKeepsLast(items: seq<Json>)
    requires AllIdentified(items)
    ensures forall k :: k in ParticipantsFromList(items).value ==> LastWithId(items, k, ParticipantsFromList(items).value[k])
  {
    if items != [] {
      var front := items[..|items| - 1];
      var last := items[|items| - 1];
      assert items == front + [last];
      assert forall i :: 0 <= i < |front| ==> front[i] == items[i];
      ParticipantsFromListKeepsLast(front);
      var table := ParticipantsFromList(front).value;
      var r := ParticipantsFromList(items).value;
      var id := ParticipantId(last).value;
      assert r == table[id := last];
      forall k | k in r
        ensures LastWithId(items, k, r[k])
      {
        if k == id {
          LastWithIdAtEnd(front, last, k);
        } else {
          LastWithIdExtends(front, last, k, table[k]);
        }
      }
    }
  }

  /**
    The welcome-processing part of `connect`: the reply must be a welcome; the client id and
    session info are taken as given (session info defaults to an empty object); the participant
    list becomes a table keyed by id, and an object is kept as the table itself.
   */
  function ParseWelcome(m: TCPMessage): (r: Result<WelcomeInfo, string>)
    ensures r.Ok? ==> m.msgType == Welcome && m.data.JObject?
    ensures r.Ok? && "client_id" in m.data.fields && m.data.fields["client_id"].JStr? ==>
              r.value.clientId == Some(m.data.fields["client_id"].s)
    ensures r.Ok? && !("client_id" in m.data.fields) ==> r.value.clientId.None?
    ensures m.msgType == Welcome && m.data.JObject? && "participants" in m.data.fields
            && m.data.fields["participants"].JArray? ==>
              (r.Ok? <==> (Get(m.data.fields, "client_id").JNull? || Get(m.data.fields, "client_id").JStr?)
                          && ParticipantsFromList(m.data.fields["participants"].items).Some?)
    ensures m.msgType != Welcome ==> r.Err?
  {
    if m.msgType != Welcome then Err("Unexpected welcome message type")
    else if !m.data.JObject? then Err("Error processing welcome message")
    else
      var f := m.data.fields;
      var id := Get(f, "client_id");
      if !(id.JNull? || id.JStr?) then Err("Error processing welcome message")
      else
        var table :=
          match GetOr(f, "participants", JArray([]))
          case JArray(items) => ParticipantsFromList(items)
          case JObject(entries) => Some(entries)
          case _ => None;
        if table.None? then Err("Error processing welcome message")
        else Ok(WelcomeInfo(if id.JStr? then Some(id.s) else None, GetOr(f, "session_info", JObject(map[])), table.value))
  }

  /** The handshake succeeds: TCP connects, the join goes out, and a well-formed welcome comes back. */
  predicate ConnectSucceeds(io: ConnectIO)
  {
    io.tcpConnects && io.joinSent && io.welcome.Ok? && ParseWelcome(io.welcome.value).Ok?
  }

  /** The welcome a successful handshake received. */
  function WelcomeOf(io: ConnectIO): WelcomeInfo
    requires ConnectSucceeds(io)
  {
    ParseWelcome(io.welcome.value).value
  }

  /** `_send_udp_address_update`: the locally bound UDP address, announced to the server. */
  function UdpAddressMessage(clientId: Option<string>, io: ConnectIO): TCPMessage
  {
    NewTcpMessage(UdpAddressUpdate, SenderOf(clientId),
                  JObject(map["udp_host" := JStr(io.localHost), "udp_port" := JInt(io.localPort)]), None, None, io.now, io.freshId)
  }

  /**
    What a successful `connect` writes after the welcome: the UDP address when a UDP socket was
    bound, then the first heartbeat, both under the id the welcome assigned.
   */
  function EstablishTraffic(clientId: Option<string>, io: ConnectIO): (r: seq<TCPMessage>)
    ensures |r| == (if io.udpReady then 2 else 1)
    ensures r[|r| - 1].msgType == Heartbeat && r[|r| - 1].senderId == SenderOf(clientId)
    ensures io.udpReady ==> r[0].msgType == UdpAddressUpdate
  {
    (if io.udpReady then [UdpAddressMessage(clientId, io)] else [])
    + [CreateHeartbeatMessage(SenderOf(clientId), io.now, io.freshId)]
  }

  /**
    What one `connect` writes to the TCP stream: nothing when the connect fails; the join under
    the temporary id; and after a good welcome, what `EstablishTraffic` adds.
   */
  function ConnectTraffic(username: string, io: ConnectIO): (r: seq<TCPMessage>)
    ensures !io.tcpConnects <==> r == []
    ensures r != [] ==> r[0] == CreateClientJoinMessage(io.tempId, username, io.now, io.freshId)
    ensures |r| == (if !io.tcpConnects then 0 else if !ConnectSucceeds(io) then 1 else if io.udpReady then 3 else 2)
  {
    if !io.tcpConnects then []
    else
      [CreateClientJoinMessage(io.tempId, username, io.now, io.freshId)]
      + (if ConnectSucceeds(io) then EstablishTraffic(ParseWelcome(io.welcome.value).value.clientId, io) else [])
  }

  /**
    A client reads back the welcome the server builds for it: its own id, the session info, and
    the participant table of the list the server sent.
   */
  lemma ServerWelcomeParses(clientId: string, username: string, sessionInfo: Json, items: seq<Json>, now: real, msgId: string)
    requires clientId != ""
    requires forall i :: 0 <= i < |items| ==> ParticipantId(items[i]).Some?
    ensures var welcome := NetworkHandlerModel.JoinAnnouncements(clientId, username, sessionInfo, JArray(items), now, msgId)[0].msg;
            ParseWelcome(welcome) == Ok(WelcomeInfo(Some(clientId), sessionInfo, ParticipantsFromList(items).value))
  {
    var welcome := NetworkHandlerModel.JoinAnnouncements(clientId, username, sessionInfo, JArray(items), now, msgId)[0].msg;
    var f := welcome.data.fields;
    assert welcome.msgType == Welcome;
    assert f == map["client_id" := JStr(clientId), "session_info" := sessionInfo, "participants" := JArray(items)];
    assert Get(f, "client_id") == JStr(clientId);
    assert GetOr(f, "participants", JArray([])) == JArray(items);
    assert GetOr(f, "session_info", JObject(map[])) == sessionInfo;
    WelcomeFieldsParse(welcome, clientId, sessionInfo, items);
  }

  /** A welcome with a string id and a participant list of identified entries parses to those. */
  lemma WelcomeFieldsParse(m: TCPMessage, clientId: string, sessionInfo: Json, items: seq<Json>)
    requires m.msgType == Welcome && m.data.JObject?
    requires Get(m.data.fields, "client_id") == JStr(clientId)
    requires GetOr(m.data.fields, "participants", JArray([])) == JArray(items) && AllIdentified(items)
    requires GetOr(m.data.fields, "session_info", JObject(map[])) == sessionInfo
    ensures ParseWelcome(m) == Ok(WelcomeInfo(Some(clientId), sessionInfo, ParticipantsFromList(items).value))
  {
  }

  // ---------------------------------------------------------------- chat

  /**
    The text checks of `send_chat_message`: a text that is empty after stripping is refused;
    otherwise the stripped text is sent, cut to 1000 characters.
   */
  function PrepareChat(text: string): (r: Option<string>)
    ensures r.Some? <==> Strip(text) != []
    ensures r.Some? ==> r.value != [] && |r.value| <= MaxChatText && r.value <= Strip(text)
    ensures r.Some? && |Strip(text)| <= MaxChatText ==> r.value == Strip(text)
  {
    if text == [] then None
    else
      var t := Strip(text);
      if t == [] then None
      else if |t| > MaxChatText then Some(t[..MaxChatText])
      else Some(t)
  }

  /** `_validate_incoming_chat_message` */
  predicate ValidIncomingChat(m: TCPMessage)
  {
    && m.msgType == Chat
    && m.data.JObject?
    && "message" in m.data.fields && m.data.fields["message"].JStr? && m.data.fields["message"].s != []
    && m.senderId != []
    && m.timestamp > 0.0
  }

  /**
    A chat this client sends is one every client accepts, exactly when the sender id is not
    empty and the clock reads after the epoch.
   */
  lemma SentChatIsAccepted(senderId: string, text: string, now: real, freshId: string)
    requires PrepareChat(text).Some?
    ensures ValidIncomingChat(CreateChatMessage(senderId, PrepareChat(text).value, now, freshId)) <==> senderId != [] && now > 0.0
  {
    var m := CreateChatMessage(senderId, PrepareChat(text).value, now, freshId);
    assert m.data.fields["message"] == JStr(PrepareChat(text).value);
  }

  // ---------------------------------------------------------------- incoming notices

  /** Python raises when a list or an object is used as a dictionary key. */
  predicate Unhashable(j: Json)
  {
    j.JArray? || j.JObject?
  }

  /** `client_id in self.participants` */
  predicate Known(id: Json, ps: map<string, Json>)
  {
    id.JStr? && id.s in ps
  }

  /** The participant a notice is about: the id it names, or for a chat its sender. */
  function Named(m: TCPMessage): Option<string>
    requires m.data.JObject?
  {
    if m.msgType == Chat then Some(m.senderId)
    else if Get(m.data.fields, "client_id").JStr? then Some(Get(m.data.fields, "client_id").s)
    else None
  }

  /**
    Where `_handle_tcp_message` raises before its callbacks: a list or object used as an id, or
    a status update for a participant whose record is not an object.
   */
  predicate Aborts(m: TCPMessage, ps: map<string, Json>)
    requires m.data.JObject?
  {
    var id := Get(m.data.fields, "client_id");
    || (m.msgType == ParticipantJoined && Truthy(id) && Truthy(Get(m.data.fields, "username")) && Unhashable(id))
    || ((m.msgType == ParticipantLeft || m.msgType == ParticipantStatusUpdate) && Unhashable(id))
    || (m.msgType == ParticipantStatusUpdate && Known(id, ps) && !ps[id.s].JObject?)
  }

  /**
    The participant table after one incoming message (None where the handler raises). A join
    inserts `{username}` under a non-empty id; a leave deletes a known id and nothing else; a
    status update overwrites the two media flags of a known participant; a valid chat from an
    unknown sender other than this client adds the sender. No message touches the record of a
    participant it does not name.
   */
  function ParticipantsAfter(ps: map<string, Json>, m: TCPMessage, ownId: Option<string>): (r: Option<map<string, Json>>)
    requires m.data.JObject?
    ensures r.None? <==> Aborts(m, ps)
    ensures r.Some? ==> forall k :: k in ps && Some(k) != Named(m) ==> k in r.value && r.value[k] == ps[k]
    ensures r.Some? ==> forall k :: k in r.value && Some(k) != Named(m) ==> k in ps
    ensures r.Some? && m.msgType == ParticipantLeft ==> r.value == ps - (if Named(m).Some? then {Named(m).value} else {})
    ensures r.Some? && m.msgType == ParticipantStatusUpdate ==> r.value.Keys == ps.Keys
    ensures m.msgType == ParticipantJoined && Named(m).Some? && Named(m).value != [] && Truthy(Get(m.data.fields, "username")) ==>
              r == Some(ps[Named(m).value := JObject(map["username" := Get(m.data.fields, "username")])])
    ensures m.msgType == Chat && r.value != ps ==>
              ValidIncomingChat(m) && m.senderId !in ps && Some(m.senderId) != ownId && r.value.Keys == ps.Keys + {m.senderId}
    ensures !(m.msgType in {ParticipantJoined, ParticipantLeft, ParticipantStatusUpdate, Chat}) ==> r == Some(ps)
  {
    var f := m.data.fields;
    var id := Get(f, "client_id");
    if Aborts(m, ps) then None
    else if m.msgType == ParticipantJoined then
      var name := Get(f, "username");
      if Truthy(id) && Truthy(name) && id.JStr? then Some(ps[id.s := JObject(map["username" := name])]) else Some(ps)
    else if m.msgType == ParticipantLeft then
      if Known(id, ps) then Some(ps - {id.s}) else Some(ps)
    else if m.msgType == ParticipantStatusUpdate then
      if Known(id, ps) then
        Some(ps[id.s := JObject(ps[id.s].fields["video_enabled" := Get(f, "video_enabled")]["audio_enabled" := Get(f, "audio_enabled")])])
      else Some(ps)
    else if m.msgType == Chat then
      if ValidIncomingChat(m) && m.senderId !in ps && Some(m.senderId) != ownId then
        Some(ps[m.senderId := JObject(map["username" := GetOr(f, "sender_username", JStr("Unknown"))])])
      else Some(ps)
    else Some(ps)
  }

  /**
    `_handle_file_available` calls its callback only for a notice with an id, a name, a size and
    an uploader whose record can be looked up.
   */
  predicate FileNoticeComplete(m: TCPMessage, ps: map<string, Json>)
    requires m.data.JObject?
  {
    var f := m.data.fields;
    var uploader := Get(f, "uploader_id");
    && Truthy(Get(f, "file_id")) && Truthy(Get(f, "filename")) && !Get(f, "filesize").JNull? && Truthy(uploader)
    && !Unhashable(uploader)
    && (uploader.JStr? && uploader.s in ps ==> ps[uploader.s].JObject?)
  }

  /** The callback calls a notice's own branch makes before the generic dispatch. */
  function BranchCallbacks(m: TCPMessage, callbacks: set<string>, ps: map<string, Json>): (r: seq<string>)
    requires m.data.JObject?
    ensures |r| <= 1 && forall t :: t in r ==> t == m.msgType && t in callbacks
  {
    var t := m.msgType;
    if !(t in callbacks) then []
    else if t == ParticipantLeft then (if Known(Get(m.data.fields, "client_id"), ps) then [t] else [])
    else if t == FileAvailable then (if FileNoticeComplete(m, ps) then [t] else [])
    else if t in {ParticipantStatusUpdate, ServerShutdown, QualityUpdate} then [t]
    else []
  }

  /**
    The callback calls `_handle_tcp_message` makes, as written: the branch's own call, then the
    generic call for every registered type. Every call is to the message's own type, registered.
   */
  function Dispatches(m: TCPMessage, callbacks: set<string>, ps: map<string, Json>): (r: seq<string>)
    requires m.data.JObject?
    ensures |r| <= 2 && forall t :: t in r ==> t == m.msgType && t in callbacks
    ensures m.msgType in callbacks && !Aborts(m, ps) ==> r != [] && r[|r| - 1] == m.msgType
  {
    if Aborts(m, ps) then []
    else BranchCallbacks(m, callbacks, ps) + (if m.msgType in callbacks then [m.msgType] else [])
  }

  /**
    A registered participant-status, shutdown or quality callback is called twice for one
    message, as are a participant-left callback for a known participant and a file-available
    callback for a complete notice.
   */
  lemma {:induction false} RegisteredCallbackRunsTwice(m: TCPMessage, callbacks: set<string>, ps: map<string, Json>)
    requires m.data.JObject? && m.msgType in callbacks && !Aborts(m, ps)
    requires || m.msgType in {ParticipantStatusUpdate, ServerShutdown, QualityUpdate}
             || (m.msgType == ParticipantLeft && Known(Get(m.data.fields, "client_id"), ps))
             || (m.msgType == FileAvailable && FileNoticeComplete(m, ps))
    ensures Dispatches(m, callbacks, ps) == [m.msgType, m.msgType]
  {
    assert BranchCallbacks(m, callbacks, ps) == [m.msgType];
  }

  /**
    Dispatch as evidently intended: each registered callback once per message, unless the
    handler raised first.
   */
  function DispatchesOnce(m: TCPMessage, callbacks: set<string>, ps: map<string, Json>): (r: seq<string>)
    requires m.data.JObject?
    ensures r == [m.msgType] <==> m.msgType in callbacks && !Aborts(m, ps)
    ensures r == [] <==> !(m.msgType in callbacks) || Aborts(m, ps)
  {
    if Aborts(m, ps) || !(m.msgType in callbacks) then [] else [m.msgType]
  }

  /** The as-written dispatch makes every call the corrected one makes, and at most one more of the same. */
  lemma {:induction false} DispatchesOnceIsSuffix(m: TCPMessage, callbacks: set<string>, ps: map<string, Json>)
    requires m.data.JObject?
    ensures var written := Dispatches(m, callbacks, ps);
            var once := DispatchesOnce(m, callbacks, ps);
            && |once| <= |written| <= |once| + 1
            && written[|written| - |once|..] == once
  {
    var written := Dispatches(m, callbacks, ps);
    if !Aborts(m, ps) && m.msgType in callbacks {
      assert written[|written| - 1] == m.msgType;
    }
  }

  /** `_notify_screen_sharing_*`: the two registered names of a connection notice that are registered. */
  function Notified(a: string, b: string, callbacks: set<string>): (r: seq<string>)
    ensures forall t :: t in r <==> (t == a && a in callbacks) || (t == b && b in callbacks)
  {
    (if a in callbacks then [a] else []) + (if b in callbacks then [b] else [])
  }

  /** `send_screen_frame`'s message: the frame in hex, the time and the frame's size. */
  function ScreenFrameMessage(clientId: string, frame: seq<byte>, now: real, freshId: string): TCPMessage
  {
    NewTcpMessage(ScreenShare, clientId,
                  JObject(map["frame_data" := JStr(Hex(frame)), "timestamp" := JFloat(now), "frame_size" := JInt(|frame|)]),
                  None, None, now, freshId)
  }

  class ConnectionManager {
    var status: Status
    var clientId: Option<string>
    var username: string
    var running: bool
    /** A TCP client exists and is connected. */
    var tcpOpen: bool
    /** A UDP client exists. */
    var udpOpen: bool
    var sessionInfo: Json
    var participants: map<string, Json>
    var udpSequenceNum: nat
    /** The message types with a registered callback. */
    var callbacks: set<string>
    var hasStatusCallback: bool
    var reconnectAttempts: nat
    var reconnectDelay: real
    var connectionStartTime: real
    var lastHeartbeat: real
    var statusEvents: seq<Status>
    var dispatched: seq<string>
    var sentTcp: seq<TCPMessage>
    var sentUdp: seq<UDPPacket>
    /** UDP packets handed to their registered callback. */
    var delivered: seq<UDPPacket>

    /** Connected means the TCP link is up, and the reconnect counters stay in range. */
    ghost predicate Valid()
      reads this`status, this`running, this`tcpOpen, this`reconnectDelay, this`reconnectAttempts
    {
      && (status == Connected ==> running && tcpOpen)
      && 0.0 < reconnectDelay <= MaxReconnectDelay
      && reconnectAttempts <= MaxReconnectAttempts
    }

    /** Audio and video share one counter: the i-th UDP packet sent, of either kind, carries number i. */
    ghost predicate UdpNumbered()
      reads this`sentUdp, this`udpSequenceNum
    {
      && |sentUdp| == udpSequenceNum
      && forall i :: 0 <= i < |sentUdp| ==> sentUdp[i].sequenceNum == i
    }

    /** The client id, session info and participant table are those of welcome `w`. */
    ghost predicate Holds(w: WelcomeInfo)
      reads this`clientId, this`sessionInfo, this`participants
    {
      clientId == w.clientId && sessionInfo == w.sessionInfo && participants == w.participants
    }

    /** `_is_connected` */
    predicate IsConnected()
      reads this
    {
      status == Connected && clientId.Some?
    }

    constructor()
      ensures Valid() && UdpNumbered() && status == Disconnected && clientId.None? && username == "" && !running
      ensures !tcpOpen && !udpOpen && participants == map[] && udpSequenceNum == 0
      ensures callbacks == {} && !hasStatusCallback && reconnectAttempts == 0 && reconnectDelay == 2.0
      ensures statusEvents == [] && dispatched == [] && sentTcp == [] && sentUdp == [] && delivered == []
    {
      status := Disconnected;
      clientId := None;
      username := "";
      running, tcpOpen, udpOpen := false, false, false;
      sessionInfo := JObject(map[]);
      participants := map[];
      udpSequenceNum := 0;
      callbacks := {};
      hasStatusCallback := false;
      reconnectAttempts, reconnectDelay := 0, 2.0;
      connectionStartTime, lastHeartbeat := 0.0, 0.0;
      statusEvents, dispatched, sentTcp, sentUdp, delivered := [], [], [], [], [];
    }

    /** `register_message_callback` */
    method RegisterMessageCallback(msgType: string)
      modifies this`callbacks
      ensures callbacks == old(callbacks) + {msgType}
    {
      callbacks := callbacks + {msgType};
    }

    /** `register_audio_callback`: audio packets are dispatched under their packet type. */
    method RegisterAudioCallback()
      modifies this`callbacks
      ensures callbacks == old(callbacks) + {Audio}
    {
      RegisterMessageCallback(Audio);
    }

    /** `register_status_callback` */
    method RegisterStatusCallback()
      modifies this`hasStatusCallback
      ensures hasStatusCallback
    {
      hasStatusCallback := true;
    }

    /** `_update_status`: the status callback hears about changes only. */
    method UpdateStatus(s: Status)
      modifies this`status, this`statusEvents
      ensures status == s
      ensures statusEvents == old(statusEvents) + (if old(status) != s && hasStatusCallback then [s] else [])
    {
      var previous := status;
      status := s;
      if previous != s && hasStatusCallback {
        statusEvents := statusEvents + [s];
      }
    }

    /** `_send_tcp_message`: nothing is written without a connected TCP client. */
    method SendTcp(msg: TCPMessage, sendOk: bool) returns (ok: bool)
      modifies this`sentTcp
      ensures ok <==> tcpOpen && sendOk
      ensures sentTcp == old(sentTcp) + (if tcpOpen then [msg] else [])
    {
      if !tcpOpen {
        return false;
      }
      sentTcp := sentTcp + [msg];
      ok := sendOk;
    }

    /** `_cleanup_connection`: the flag that keeps the worker loops going is cleared, and both sockets closed. */
    method CleanupConnection()
      modifies this`running, this`tcpOpen, this`udpOpen
      ensures !running && !tcpOpen && !udpOpen
    {
      running, tcpOpen, udpOpen := false, false, false;
    }

    /** Appends the registered ones of two connection notices to `dispatched`. */
    method Notify(a: string, b: string)
      modifies this`dispatched
      ensures dispatched == old(dispatched) + Notified(a, b, callbacks)
    {
      dispatched := dispatched + Notified(a, b, callbacks);
    }

    /**
      `connect`: refused, with nothing changed, while connected or connecting. Otherwise the status
      goes to connecting and then to connected exactly when the handshake succeeds, and to error
      otherwise; a success takes the client id, session info and participant table from the
      welcome and resets the reconnect count.
     */
    method Connect(name: string, io: ConnectIO) returns (ok: bool)
      requires Valid()
      modifies this`username, this`status, this`statusEvents, this`tcpOpen, this`udpOpen, this`sentTcp, this`running
      modifies this`clientId, this`sessionInfo, this`participants, this`connectionStartTime, this`lastHeartbeat
      modifies this`reconnectAttempts
      ensures Valid()
      ensures old(status) == Connected || old(status) == Connecting ==> !ok && unchanged(this)
      ensures old(status) != Connected && old(status) != Connecting ==>
                && username == name
                && (ok <==> ConnectSucceeds(io))
                && (ok ==> status == Connected && running && udpOpen == io.udpReady && reconnectAttempts == 0
                           && Holds(WelcomeOf(io)))
                && (!ok ==> status == Error && clientId == old(clientId) && participants == old(participants)
                            && reconnectAttempts == old(reconnectAttempts))
                && (!ok && io.tcpConnects ==> !running && !tcpOpen)
                && sentTcp == old(sentTcp) + ConnectTraffic(name, io)
                && statusEvents == old(statusEvents) + (if hasStatusCallback then [Connecting, status] else [])
    {
      if status == Connected || status == Connecting {
        return false;
      }
      username := name;
      UpdateStatus(Connecting);
      ok := Handshake(CreateClientJoinMessage(io.tempId, name, io.now, io.freshId), io);
    }

    /**
      The part of `connect` after the status has gone to connecting: the TCP connect, the join,
      the welcome, and on any failure the error status.
     */
    method Handshake(join: TCPMessage, io: ConnectIO) returns (ok: bool)
      requires Valid() && status == Connecting
      modifies this`status, this`statusEvents, this`tcpOpen, this`udpOpen, this`sentTcp, this`running
      modifies this`clientId, this`sessionInfo, this`participants, this`connectionStartTime, this`lastHeartbeat
      modifies this`reconnectAttempts
      ensures Valid()
      ensures ok <==> ConnectSucceeds(io)
      ensures ok ==> status == Connected && running && udpOpen == io.udpReady && reconnectAttempts == 0
                     && Holds(WelcomeOf(io))
      ensures !ok ==> status == Error && clientId == old(clientId) && participants == old(participants)
                      && reconnectAttempts == old(reconnectAttempts)
      ensures !ok && io.tcpConnects ==> !running && !tcpOpen
      ensures sentTcp == old(sentTcp) + (if io.tcpConnects then [join] else [])
                         + (if ok then EstablishTraffic(WelcomeOf(io).clientId, io) else [])
      ensures statusEvents == old(statusEvents) + (if hasStatusCallback then [status] else [])
    {
      var joinOk := false;
      tcpOpen := io.tcpConnects;
      if io.tcpConnects {
        udpOpen := io.udpReady;
        joinOk := SendTcp(join, io.joinSent);
      }
      ok := joinOk && io.welcome.Ok? && ParseWelcome(io.welcome.value).Ok?;
      if ok {
        var welcome := ParseWelcome(io.welcome.value).value;
        Establish(welcome, io, EstablishTraffic(welcome.clientId, io));
      } else {
        if io.tcpConnects {
          CleanupConnection();
        }
        UpdateStatus(Error);
      }
    }

    /** The end of a successful `connect`: the welcome's state taken over, the UDP address and a heartbeat sent. */
    method Establish(w: WelcomeInfo, io: ConnectIO, traffic: seq<TCPMessage>)
      requires Valid() && status == Connecting && tcpOpen
      modifies this`clientId, this`sessionInfo, this`participants, this`running, this`connectionStartTime
      modifies this`lastHeartbeat, this`sentTcp, this`status, this`statusEvents, this`reconnectAttempts
      ensures Valid() && status == Connected && running && reconnectAttempts == 0
      ensures Holds(w)
      ensures sentTcp == old(sentTcp) + traffic
      ensures statusEvents == old(statusEvents) + (if hasStatusCallback then [Connected] else [])
    {
      clientId := w.clientId;
      sessionInfo := w.sessionInfo;
      participants := w.participants;
      running := true;
      connectionStartTime, lastHeartbeat := io.now, io.now;
      UpdateStatus(Connected);
      reconnectAttempts := 0;
      // Both go over the open TCP link; their send results are not looked at.
      SendAll(traffic);
    }

    /** Messages written to the TCP link one after another, their send results not looked at. */
    method SendAll(msgs: seq<TCPMessage>)
      modifies this`sentTcp
      ensures sentTcp == old(sentTcp) + msgs
    {
      sentTcp := sentTcp + msgs;
    }

    /** `disconnect`: a no-op when disconnected; otherwise a leave notice goes out if possible and everything closes. */
    method Disconnect(now: real, freshId: string)
      requires Valid()
      modifies this`running, this`tcpOpen, this`udpOpen, this`sentTcp, this`status, this`statusEvents
      ensures Valid()
      ensures old(status) == Disconnected ==>
                running == old(running) && tcpOpen == old(tcpOpen) && udpOpen == old(udpOpen)
                && sentTcp == old(sentTcp) && status == old(status) && statusEvents == old(statusEvents)
      ensures old(status) != Disconnected ==>
                && status == Disconnected && !running && !tcpOpen && !udpOpen
                && sentTcp == old(sentTcp) + (if clientId.Some? && clientId.value != [] && old(tcpOpen)
                                              then [CreateClientLeaveMessage(clientId.value, now, freshId)] else [])
                && statusEvents == old(statusEvents) + (if hasStatusCallback then [Disconnected] else [])
    {
      if status == Disconnected {
        return;
      }
      running := false;
      if clientId.Some? && clientId.value != [] && tcpOpen {
        var _ := SendTcp(CreateClientLeaveMessage(clientId.value, now, freshId), true);
      }
      CleanupConnection();
      UpdateStatus(Disconnected);
    }

    /** `send_chat_message` */
    method SendChatMessage(text: string, sendOk: bool, now: real, freshId: string) returns (ok: bool)
      requires Valid()
      modifies this`sentTcp
      ensures ok <==> IsConnected() && PrepareChat(text).Some? && sendOk
      ensures sentTcp == old(sentTcp) + (if IsConnected() && PrepareChat(text).Some?
                                         then [CreateChatMessage(clientId.value, PrepareChat(text).value, now, freshId)] else [])
    {
      if !IsConnected() {
        return false;
      }
      var t := PrepareChat(text);
      if t.None? {
        return false;
      }
      ok := SendTcp(CreateChatMessage(clientId.value, t.value, now, freshId), sendOk);
    }

    /** `send_audio_data`: takes the current UDP number and moves the shared counter on. */
    method SendAudioData(audio: seq<byte>, sendOk: bool, now: real) returns (ok: bool)
      requires UdpNumbered()
      modifies this`udpSequenceNum, this`sentUdp
      ensures UdpNumbered()
      ensures ok <==> IsConnected() && udpOpen && sendOk
      ensures IsConnected() && udpOpen ==>
                sentUdp == old(sentUdp) + [CreateAudioPacket(clientId.value, old(udpSequenceNum), audio, now)]
      ensures !(IsConnected() && udpOpen) ==> sentUdp == old(sentUdp)
    {
      if !IsConnected() || !udpOpen {
        return false;
      }
      var packet := CreateAudioPacket(clientId.value, udpSequenceNum, audio, now);
      udpSequenceNum := udpSequenceNum + 1;
      sentUdp := sentUdp + [packet];
      ok := sendOk;
    }

    /** `send_video_data`: the same counter as audio. */
    method SendVideoData(video: seq<byte>, sendOk: bool, now: real) returns (ok: bool)
      requires UdpNumbered()
      modifies this`udpSequenceNum, this`sentUdp
      ensures UdpNumbered()
      ensures ok <==> IsConnected() && udpOpen && sendOk
      ensures IsConnected() && udpOpen ==>
                sentUdp == old(sentUdp) + [CreateVideoPacket(clientId.value, old(udpSequenceNum), video, now)]
      ensures !(IsConnected() && udpOpen) ==> sentUdp == old(sentUdp)
    {
      if !IsConnected() || !udpOpen {
        return false;
      }
      var packet := CreateVideoPacket(clientId.value, udpSequenceNum, video, now);
      udpSequenceNum := udpSequenceNum + 1;
      sentUdp := sentUdp + [packet];
      ok := sendOk;
    }

    /**
      The retry loop shared by the screen-sharing senders: attempt `i` succeeds when the TCP link
      is up and `sendOk(i)`; sending stops at the first success or after `retries` attempts. The
      connection checks between attempts always pass here, since nothing between them changes
      the status in a sequential run.
     */
    method SendWithRetries(msg: TCPMessage, retries: nat, sendOk: nat -> bool) returns (ok: bool, attempts: nat)
      requires retries > 0
      modifies this`sentTcp
      ensures 1 <= attempts <= retries
      ensures ok <==> tcpOpen && sendOk(attempts - 1)
      ensures forall j :: 0 <= j < attempts - 1 ==> !(tcpOpen && sendOk(j))
      ensures !ok ==> attempts == retries
      ensures sentTcp == old(sentTcp) + (if tcpOpen then seq(attempts, _ => msg) else [])
    {
      attempts := 0;
      ok := false;
      while attempts < retries && !ok
        invariant 0 <= attempts <= retries
        invariant ok ==> 1 <= attempts && tcpOpen && sendOk(attempts - 1)
        invariant forall j :: 0 <= j < (if ok then attempts - 1 else attempts) ==> !(tcpOpen && sendOk(j))
        invariant sentTcp == old(sentTcp) + (if tcpOpen then seq(attempts, _ => msg) else [])
      {
        ok := SendTcp(msg, sendOk(attempts));
        attempts := attempts + 1;
      }
    }

    /**
      `_handle_connection_lost`, as written: `_cleanup_connection` clears `running` before the
      retry loop tests it, so no reconnect is attempted and the status always ends at error.
     */
    method HandleConnectionLost()
      requires Valid()
      modifies this`status, this`statusEvents, this`dispatched, this`running, this`tcpOpen, this`udpOpen
      ensures Valid()
      ensures status == Error && !running && !tcpOpen && !udpOpen
      ensures statusEvents == old(statusEvents) + (if hasStatusCallback
                                                   then (if old(status) != Reconnecting then [Reconnecting] else []) + [Error]
                                                   else [])
      ensures dispatched == old(dispatched) + Notified(ScreenSharingConnectionLost, ConnectionLostName, callbacks)
                                            + Notified(ScreenSharingConnectionFailed, ConnectionFailedName, callbacks)
    {
      UpdateStatus(Reconnecting);
      Notify(ScreenSharingConnectionLost, ConnectionLostName);
      CleanupConnection();
      // The reconnect loop's guard `running` is false here: no attempt is made.
      UpdateStatus(Error);
      Notify(ScreenSharingConnectionFailed, ConnectionFailedName);
    }

    /** One reconnect attempt: `connect` again under the same user name. */
    method Reconnect(io: ConnectIO) returns (ok: bool)
      requires Valid() && status != Connected && status != Connecting
      modifies this`username, this`status, this`statusEvents, this`tcpOpen, this`udpOpen, this`sentTcp, this`running
      modifies this`clientId, this`sessionInfo, this`participants, this`connectionStartTime, this`lastHeartbeat
      modifies this`reconnectAttempts
      ensures Valid()
      ensures ok <==> ConnectSucceeds(io)
      ensures ok ==> status == Connected && reconnectAttempts == 0
      ensures !ok ==> status == Error && reconnectAttempts == old(reconnectAttempts)
    {
      ok := Connect(username, io);
    }

    /**
      `_handle_connection_lost` as evidently intended: when the connection had been running, it is
      retried, attempt `i` seeing `attempt(i)`, until one succeeds or five have been made, the
      delay doubling up to 30 s between them.
     */
    method HandleConnectionLostCorrected(attempt: nat -> ConnectIO)
      requires Valid()
      modifies this`username, this`status, this`statusEvents, this`tcpOpen, this`udpOpen, this`sentTcp, this`running
      modifies this`clientId, this`sessionInfo, this`participants, this`connectionStartTime, this`lastHeartbeat
      modifies this`reconnectAttempts, this`reconnectDelay, this`dispatched
      ensures Valid()
      ensures status == Connected <==>
                old(running) && exists i :: old(reconnectAttempts) <= i < MaxReconnectAttempts && ConnectSucceeds(attempt(i))
      ensures status != Connected ==> status == Error
    {
      var wasRunning := running;
      UpdateStatus(Reconnecting);
      Notify(ScreenSharingConnectionLost, ConnectionLostName);
      CleanupConnection();
      while wasRunning && reconnectAttempts < MaxReconnectAttempts
        invariant Valid()
        invariant wasRunning == old(running)
        invariant status == Reconnecting || status == Error
        invariant wasRunning ==> old(reconnectAttempts) <= reconnectAttempts
        invariant forall i :: old(reconnectAttempts) <= i < reconnectAttempts ==> !ConnectSucceeds(attempt(i))
        decreases MaxReconnectAttempts - reconnectAttempts
      {
        var index := reconnectAttempts;
        reconnectAttempts := reconnectAttempts + 1;
        var ok := Reconnect(attempt(index));
        if ok {
          Notify(ScreenSharingReconnected, ConnectionRestored);
          return;
        }
        reconnectDelay := if reconnectDelay * 2.0 < MaxReconnectDelay then reconnectDelay * 2.0 else MaxReconnectDelay;
      }
      UpdateStatus(Error);
      Notify(ScreenSharingConnectionFailed, ConnectionFailedName);
    }

    /**
      `send_screen_frame`: refused when not connected (which also starts the connection-lost
      handling unless a reconnect is already under way), without a client id, for an empty frame
      and for a frame over 1 MiB; otherwise the frame is sent with up to two attempts.
     */
    method SendScreenFrame(frame: seq<byte>, sendOk: nat -> bool, now: real, freshId: string)
      returns (ok: bool, outcome: SendOutcome)
      requires Valid()
      modifies this`status, this`statusEvents, this`dispatched, this`running, this`tcpOpen, this`udpOpen, this`sentTcp
      ensures Valid()
      ensures ok <==> outcome == Sent
      ensures outcome == NotConnected <==> !old(IsConnected())
      ensures outcome == NotConnected && old(status) != Reconnecting ==> status == Error
      ensures old(IsConnected()) ==>
                && (outcome == NoClientId <==> clientId.value == [])
                && (outcome == EmptyFrame <==> clientId.value != [] && frame == [])
                && (outcome == FrameTooLarge <==> clientId.value != [] && frame != [] && |frame| > MaxScreenFrameSize)
                && (outcome == Sent <==> clientId.value != [] && frame != [] && |frame| <= MaxScreenFrameSize
                                         && (sendOk(0) || sendOk(1)))
                && status == old(status)
      ensures outcome == Sent ==>
                sentTcp != [] && sentTcp[|sentTcp| - 1] == ScreenFrameMessage(clientId.value, frame, now, freshId)
    {
      if !IsConnected() {
        if status != Reconnecting {
          HandleConnectionLost();
        }
        return false, NotConnected;
      }
      if clientId.value == [] {
        return false, NoClientId;
      }
      if frame == [] {
        return false, EmptyFrame;
      }
      if |frame| > MaxScreenFrameSize {
        return false, FrameTooLarge;
      }
      var msg := ScreenFrameMessage(clientId.value, frame, now, freshId);
      var attempts;
      ok, attempts := SendWithRetries(msg, ScreenFrameRetries, sendOk);
      outcome := if ok then Sent else SendFailed;
    }

    /** `request_presenter_role` (the `_is_presenter` shortcut never applies: nothing sets that attribute). */
    method RequestPresenterRole(sendOk: nat -> bool, now: real, freshId: string) returns (ok: bool, outcome: SendOutcome)
      requires Valid()
      modifies this`status, this`statusEvents, this`dispatched, this`running, this`tcpOpen, this`udpOpen, this`sentTcp
      ensures Valid()
      ensures ok <==> outcome == Sent
      ensures outcome == NotConnected <==> !old(IsConnected())
      ensures outcome == NotConnected && old(status) != Reconnecting ==> status == Error
      ensures old(IsConnected()) ==>
                && (outcome == NoClientId <==> clientId.value == [])
                && (outcome == Sent <==> clientId.value != [] && (sendOk(0) || sendOk(1) || sendOk(2)))
                && (outcome == Sent ==> sentTcp != [] && sentTcp[|sentTcp| - 1] == CreatePresenterRequestMessage(clientId.value, now, freshId))
    {
      if !IsConnected() {
        if status != Reconnecting {
          HandleConnectionLost();
        }
        return false, NotConnected;
      }
      if clientId.value == [] {
        return false, NoClientId;
      }
      var attempts;
      ok, attempts := SendWithRetries(CreatePresenterRequestMessage(clientId.value, now, freshId), ControlRetries, sendOk);
      outcome := if ok then Sent else SendFailed;
    }

    /** `start_screen_sharing` */
    method StartScreenSharing(sendOk: nat -> bool, now: real, freshId: string) returns (ok: bool, outcome: SendOutcome)
      requires Valid()
      modifies this`status, this`statusEvents, this`dispatched, this`running, this`tcpOpen, this`udpOpen, this`sentTcp
      ensures Valid()
      ensures ok <==> outcome == Sent
      ensures outcome == NotConnected <==> !old(IsConnected())
      ensures outcome == NotConnected && old(status) != Reconnecting ==> status == Error
      ensures old(IsConnected()) ==>
                && (outcome == NoClientId <==> clientId.value == [])
                && (outcome == Sent <==> clientId.value != [] && (sendOk(0) || sendOk(1) || sendOk(2)))
                && (outcome == Sent ==> sentTcp != [] && sentTcp[|sentTcp| - 1] == CreateScreenShareStartMessage(clientId.value, now, freshId))
    {
      if !IsConnected() {
        if status != Reconnecting {
          HandleConnectionLost();
        }
        return false, NotConnected;
      }
      if clientId.value == [] {
        return false, NoClientId;
      }
      var attempts;
      ok, attempts := SendWithRetries(CreateScreenShareStartMessage(clientId.value, now, freshId), ControlRetries, sendOk);
      outcome := if ok then Sent else SendFailed;
    }

    /** `stop_screen_sharing`: attempted even when the connection looks lost; only a missing client id stops it. */
    method StopScreenSharing(sendOk: nat -> bool, now: real, freshId: string) returns (ok: bool, outcome: SendOutcome)
      modifies this`sentTcp
      ensures ok <==> outcome == Sent
      ensures outcome == NoClientId <==> clientId.None? || clientId.value == []
      ensures outcome == Sent <==> clientId.Some? && clientId.value != [] && tcpOpen && (sendOk(0) || sendOk(1) || sendOk(2))
      ensures outcome == Sent ==> sentTcp != [] && sentTcp[|sentTcp| - 1] == CreateScreenShareStopMessage(clientId.value, now, freshId)
    {
      if clientId.None? || clientId.value == [] {
        return false, NoClientId;
      }
      var attempts;
      ok, attempts := SendWithRetries(CreateScreenShareStopMessage(clientId.value, now, freshId), ControlRetries, sendOk);
      outcome := if ok then Sent else SendFailed;
    }

    /** `update_media_status` */
    method UpdateMediaStatus(videoEnabled: bool, audioEnabled: bool, sendOk: bool, now: real, freshId: string) returns (ok: bool)
      requires Valid()
      modifies this`sentTcp
      ensures ok <==> IsConnected() && sendOk
      ensures sentTcp == old(sentTcp) + (if IsConnected() then [NewTcpMessage(MediaStatusUpdate, clientId.value,
                  JObject(map["video_enabled" := JBool(videoEnabled), "audio_enabled" := JBool(audioEnabled)]),
                  None, None, now, freshId)] else [])
    {
      if !IsConnected() {
        return false;
      }
      ok := SendTcp(NewTcpMessage(MediaStatusUpdate, clientId.value,
                                  JObject(map["video_enabled" := JBool(videoEnabled), "audio_enabled" := JBool(audioEnabled)]),
                                  None, None, now, freshId), sendOk);
    }

    /**
      `_handle_tcp_message` for a deserialized message (whose data is always an object): the
      participant table moves on by `ParticipantsAfter`, the callbacks run as `Dispatches` says,
      and a server shutdown sets the status to disconnected and stops the worker loops.
     */
    method HandleTcpMessage(m: TCPMessage)
      requires Valid() && m.data.JObject?
      modifies this`participants, this`dispatched, this`status, this`statusEvents, this`running
      ensures Valid()
      ensures participants == (var r := ParticipantsAfter(old(participants), m, clientId); if r.Some? then r.value else old(participants))
      ensures dispatched == old(dispatched) + Dispatches(m, callbacks, old(participants))
      ensures m.msgType == ServerShutdown ==>
                status == Disconnected && !running
                && statusEvents == old(statusEvents) + (if old(status) != Disconnected && hasStatusCallback then [Disconnected] else [])
      ensures m.msgType != ServerShutdown ==> status == old(status) && running == old(running) && statusEvents == old(statusEvents)
    {
      var before := participants;
      var after := ParticipantsAfter(participants, m, clientId);
      if after.None? {
        return;
      }
      participants := after.value;
      dispatched := dispatched + BranchCallbacks(m, callbacks, before);
      if m.msgType == ServerShutdown {
        UpdateStatus(Disconnected);
        running := false;
      }
      if m.msgType in callbacks {
        dispatched := dispatched + [m.msgType];
      }
    }

    /** `_handle_udp_packet`: a packet goes to the callback registered for its type, if any. */
    method HandleUdpPacket(p: UDPPacket)
      modifies this`delivered
      ensures delivered == old(delivered) + (if p.packetType in callbacks then [p] else [])
    {
      if p.packetType in callbacks {
        delivered := delivered + [p];
      }
    }
  }

  /**
    A connected client that loses its connection ends in error without a single reconnect
    attempt, however good the network would have been.
   */
  method LostConnectionIsNeverRetried(name: string, io: ConnectIO) returns (status: Status, attempts: nat)
    requires ConnectSucceeds(io)
    ensures status == Error && attempts == 0
  {
    var link := new ConnectionManager();
    var ok := link.Connect(name, io);
    link.HandleConnectionLost();
    status, attempts := link.status, link.reconnectAttempts;
  }

  /** With the correction, the same loss is recovered by the first reconnect attempt. */
  method LostConnectionIsRetriedWhenCorrected(name: string, io: ConnectIO) returns (status: Status)
    requires ConnectSucceeds(io)
    ensures status == Connected
  {
    var link := new ConnectionManager();
    var ok := link.Connect(name, io);
    assert link.running && link.reconnectAttempts == 0;
    var retry: nat -> ConnectIO := _ => io;
    assert ConnectSucceeds(retry(0));
    link.HandleConnectionLostCorrected(retry);
    status := link.status;
  }

  /** Audio and video sent in turn take the numbers 0, 1, 2 from the one counter. */
  method MediaShareOneCounter(name: string, io: ConnectIO, a: seq<byte>, v: seq<byte>, b: seq<byte>, now: real)
    returns (numbers: seq<int>)
    requires ConnectSucceeds(io) && io.udpReady && ParseWelcome(io.welcome.value).value.clientId.Some?
    ensures numbers == [0, 1, 2]
  {
    var link := new ConnectionManager();
    var _ := link.Connect(name, io);
    var _ := link.SendAudioData(a, true, now);
    var _ := link.SendVideoData(v, true, now);
    var _ := link.SendAudioData(b, true, now);
    numbers := [link.sentUdp[0].sequenceNum, link.sentUdp[1].sequenceNum, link.sentUdp[2].sequenceNum];
  }
}
