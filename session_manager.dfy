/**
  The server's session registry (server/session_manager.py): participants, the presenter
  role and the screen-sharing flag, chat history, heartbeat expiry, the queue of
  notifications waiting to be broadcast, and the bookkeeping of chunked file uploads.
 */
module Sessions {
  import opened Wrappers
  import opened JsonModel
  import opened Messages
  import opened FileMetadataModel

  /** The chat history kept by `add_chat_message`. */
  const MaxChatHistory: nat := 1000

  /** `ClientConnection` (the socket itself is not modelled). */
  datatype Client = Client(
    clientId: string,
    username: string,
    udpAddress: Option<(string, int)>,
    videoEnabled: bool,
    audioEnabled: bool,
    isPresenter: bool,
    connectionTime: real,
    lastHeartbeat: real)

  /** One entry of `file_uploads_in_progress` (the open file handle and temp path are not modelled). */
  datatype Upload = Upload(metadata: FileMetadata, chunksReceived: nat, totalChunks: int, startTime: real)

  /** The messages `add_chat_message` records: chat messages with a `message` entry and a sender. */
  predicate KeptInHistory(m: TCPMessage)
  {
    m.msgType == Chat && PyIn("message", m.data) == Some(true) && m.senderId != ""
  }

  /** Appending to the history and trimming it keeps the new message last and never exceeds the cap. */
  lemma CappedAppend(h: seq<TCPMessage>, m: TCPMessage)
    ensures var r := KeepLast(h + [m], MaxChatHistory);
            r[|r| - 1] == m && |r| <= MaxChatHistory && (|h| < MaxChatHistory ==> r == h + [m])
  {
  }

  /**
    The in-memory part of `process_file_chunk` for an upload in progress: the first chunk fixes
    the total, a different total later is refused, and otherwise the chunk is counted.
   */
  function ChunkStep(u: Upload, totalChunks: int): (r: Result<Upload, string>)
    ensures r.Err? <==> u.totalChunks != 0 && u.totalChunks != totalChunks
    ensures r.Ok? ==> r.value.chunksReceived == u.chunksReceived + 1 && r.value.metadata == u.metadata
    ensures r.Ok? ==> r.value.totalChunks == (if u.totalChunks == 0 then totalChunks else u.totalChunks)
  {
    if u.totalChunks == 0 then Ok(u.(totalChunks := totalChunks, chunksReceived := u.chunksReceived + 1))
    else if u.totalChunks != totalChunks then Err("Total chunks mismatch")
    else Ok(u.(chunksReceived := u.chunksReceived + 1))
  }

  /** `chunks_received >= total_chunks`, checked against the total the chunk carries. */
  predicate ChunkCompletes(u: Upload, totalChunks: int)
  {
    u.chunksReceived >= totalChunks
  }

  /** Feeding `k` chunks that all announce the same total `n` to a fresh upload. */
  function FeedChunks(u: Upload, n: int, k: nat): Upload
  {
    if k == 0 then u
    else
      match ChunkStep(FeedChunks(u, n, k - 1), n)
      case Ok(v) => v
      case Err(_) => FeedChunks(u, n, k - 1)
  }

  /** With a consistent total, every chunk is accepted and the upload is complete exactly from chunk `n` on. */
  lemma {:induction false} ConsistentChunksComplete(u: Upload, n: int, k: nat)
    requires u.chunksReceived == 0 && u.totalChunks == 0 && k >= 1
    ensures FeedChunks(u, n, k).totalChunks == n
    ensures FeedChunks(u, n, k).chunksReceived == k
    ensures ChunkCompletes(FeedChunks(u, n, k), n) <==> k >= n
  {
    if k > 1 {
      ConsistentChunksComplete(u, n, k - 1);
    }
  }

  class SessionManager {
    var clients: map<string, Client>
    var activePresenter: Option<string>
    var chatHistory: seq<TCPMessage>
    var sharedFiles: map<string, FileMetadata>
    var screenSharingActive: bool
    /** Only the superseded screen-sharing methods ever assigned this; it stays None. */
    var activeScreenSharer: Option<string>
    var lastScreenFrameTime: Option<real>
    var uploads: map<string, Upload>
    var pendingBroadcasts: seq<TCPMessage>

    /**
      Ids are keys and never empty; exactly the active presenter carries `is_presenter`,
      and the active presenter is a present client.
     */
    ghost predicate Valid()
      reads this`clients, this`activePresenter, this`activeScreenSharer, this`uploads
    {
      && (forall id :: id in clients ==> id != "" && clients[id].clientId == id)
      && (forall id :: id in clients ==> (clients[id].isPresenter <==> activePresenter == Some(id)))
      && (activePresenter.Some? ==> activePresenter.value in clients)
      && activeScreenSharer.None?
      && (forall f :: f in uploads ==> uploads[f].metadata.fileId == f)
    }

    constructor()
      ensures Valid()
      ensures clients == map[] && activePresenter.None? && chatHistory == [] && sharedFiles == map[]
      ensures !screenSharingActive && lastScreenFrameTime.None? && uploads == map[] && pendingBroadcasts == []
    {
      clients := map[];
      activePresenter := None;
      chatHistory := [];
      sharedFiles := map[];
      screenSharingActive := false;
      activeScreenSharer := None;
      lastScreenFrameTime := None;
      uploads := map[];
      pendingBroadcasts := [];
    }

    /** `add_client`: `freshId` is the uuid4 the source draws, `msgId` the join message's id. */
    method AddClient(username: string, freshId: string, now: real, msgId: string) returns (clientId: string)
      requires Valid()
      requires freshId != "" && freshId !in clients
      modifies this`clients, this`chatHistory
      ensures Valid()
      ensures clientId == freshId
      ensures clients == old(clients)[clientId := Client(clientId, username, None, false, false, false, now, now)]
      ensures chatHistory == old(chatHistory) + [CreateClientJoinMessage(clientId, username, now, msgId)]
    {
      clientId := freshId;
      clients := clients[clientId := Client(clientId, username, None, false, false, false, now, now)];
      chatHistory := chatHistory + [CreateClientJoinMessage(clientId, username, now, msgId)];
    }

    /**
      `remove_client`: the presenter role goes with the client; sharing stops only when the
      client is the recorded screen sharer.
     */
    method RemoveClient(clientId: string, now: real, msgId: string) returns (removed: bool)
      requires Valid()
      modifies this`clients, this`chatHistory, this`activePresenter, this`activeScreenSharer, this`screenSharingActive
      ensures Valid()
      ensures removed <==> clientId in old(clients)
      ensures clients == old(clients) - {clientId}
      ensures activePresenter == if old(activePresenter) == Some(clientId) then None else old(activePresenter)
      ensures chatHistory == old(chatHistory) + (if removed then [CreateClientLeaveMessage(clientId, now, msgId)] else [])
      ensures screenSharingActive == (if removed && old(activeScreenSharer) == Some(clientId) then false else old(screenSharingActive))
      ensures activeScreenSharer == old(activeScreenSharer)
    {
      if clientId !in clients {
        return false;
      }
      if activePresenter == Some(clientId) {
        activePresenter := None;
      }
      chatHistory := chatHistory + [CreateClientLeaveMessage(clientId, now, msgId)];
      if activeScreenSharer == Some(clientId) {
        activeScreenSharer := None;
        screenSharingActive := false;
      }
      clients := clients - {clientId};
      removed := true;
    }

    /** `get_client` */
    function GetClient(clientId: string): Option<Client>
      reads this
    {
      if clientId in clients then Some(clients[clientId]) else None
    }

    /** `update_client_media_status`: None keeps a flag as it is. */
    method UpdateClientMediaStatus(clientId: string, video: Option<bool>, audio: Option<bool>) returns (ok: bool)
      requires Valid()
      modifies this`clients
      ensures Valid()
      ensures ok <==> clientId in old(clients)
      ensures ok ==> clients == old(clients)[clientId := old(clients)[clientId].(
                videoEnabled := if video.Some? then video.value else old(clients)[clientId].videoEnabled,
                audioEnabled := if audio.Some? then audio.value else old(clients)[clientId].audioEnabled)]
      ensures !ok ==> clients == old(clients)
    {
      if clientId !in clients {
        return false;
      }
      var c := clients[clientId];
      if video.Some? {
        c := c.(videoEnabled := video.value);
      }
      if audio.Some? {
        c := c.(audioEnabled := audio.value);
      }
      clients := clients[clientId := c];
      ok := true;
    }

    /** `set_presenter`: the previous presenter loses the flag and `clientId` gains it. */
    method SetPresenter(clientId: string) returns (ok: bool)
      requires Valid()
      modifies this`clients, this`activePresenter
      ensures Valid()
      ensures ok <==> clientId in old(clients)
      ensures ok ==> activePresenter == Some(clientId) && clients.Keys == old(clients).Keys
      ensures ok ==> forall id :: id in clients ==> clients[id] == old(clients)[id].(isPresenter := id == clientId)
      ensures !ok ==> clients == old(clients) && activePresenter == old(activePresenter)
    {
      if clientId !in clients {
        return false;
      }
      if activePresenter.Some? && activePresenter.value in clients {
        var prev := activePresenter.value;
        clients := clients[prev := clients[prev].(isPresenter := false)];
      }
      activePresenter := Some(clientId);
      clients := clients[clientId := clients[clientId].(isPresenter := true)];
      ok := true;
    }

    /** `request_presenter_role`: granted unless another present client already holds the role. */
    method RequestPresenterRole(clientId: string) returns (ok: bool, msg: string)
      requires Valid()
      modifies this`clients, this`activePresenter
      ensures Valid()
      ensures clientId !in old(clients) ==> !ok && msg == "Client not found"
      ensures clientId in old(clients) && old(activePresenter).Some? && old(activePresenter).value != clientId ==>
                !ok && msg == "Presenter role already taken by " + old(clients)[old(activePresenter).value].username
      ensures !ok ==> clients == old(clients) && activePresenter == old(activePresenter)
      ensures ok <==> clientId in old(clients) && (old(activePresenter).None? || old(activePresenter) == Some(clientId))
      ensures ok ==> activePresenter == Some(clientId) && msg == "Presenter role granted"
    {
      if clientId !in clients {
        return false, "Client not found";
      }
      if activePresenter.Some? && activePresenter.value != clientId {
        if activePresenter.value in clients {
          return false, "Presenter role already taken by " + clients[activePresenter.value].username;
        }
      }
      var granted := SetPresenter(clientId);
      if granted {
        ok, msg := true, "Presenter role granted";
      } else {
        ok, msg := false, "Failed to set presenter role";
      }
    }

    /** `clear_presenter` */
    method ClearPresenter() returns (ok: bool)
      requires Valid()
      modifies this`clients, this`activePresenter
      ensures Valid()
      ensures ok <==> old(activePresenter).Some?
      ensures activePresenter.None? && clients.Keys == old(clients).Keys
      ensures forall id :: id in clients ==> clients[id] == old(clients)[id].(isPresenter := false)
    {
      if activePresenter.None? {
        return false;
      }
      var p := activePresenter.value;
      if p in clients {
        clients := clients[p := clients[p].(isPresenter := false)];
      }
      activePresenter := None;
      ok := true;
    }

    /** `get_presenter` */
    function GetPresenter(): (r: Option<Client>)
      reads this
      requires Valid()
      ensures r.Some? <==> activePresenter.Some?
      ensures r.Some? ==> r.value.isPresenter && r.value.clientId == activePresenter.value
    {
      if activePresenter.Some? then GetClient(activePresenter.value) else None
    }

    /** `start_screen_sharing` (the definition in force): only the active presenter may start. */
    method StartScreenSharing(clientId: string, now: real) returns (ok: bool)
      requires Valid()
      modifies this`screenSharingActive, this`lastScreenFrameTime
      ensures Valid()
      ensures ok <==> clientId in clients && activePresenter == Some(clientId)
      ensures ok ==> screenSharingActive && lastScreenFrameTime == Some(now)
      ensures !ok ==> screenSharingActive == old(screenSharingActive) && lastScreenFrameTime == old(lastScreenFrameTime)
    {
      if clientId !in clients || activePresenter != Some(clientId) {
        return false;
      }
      screenSharingActive := true;
      lastScreenFrameTime := Some(now);
      ok := true;
    }

    /**
      `stop_screen_sharing` (the definition in force): refused when sharing is off, or when a
      (non-empty) caller is named who is not the presenter.
     */
    method StopScreenSharing(clientId: Option<string>) returns (ok: bool)
      requires Valid()
      modifies this`screenSharingActive, this`lastScreenFrameTime
      ensures Valid()
      ensures ok <==> old(screenSharingActive) && !(clientId.Some? && clientId.value != "" && activePresenter != clientId)
      ensures ok ==> !screenSharingActive && lastScreenFrameTime.None?
      ensures !ok ==> screenSharingActive == old(screenSharingActive) && lastScreenFrameTime == old(lastScreenFrameTime)
    {
      if !screenSharingActive {
        return false;
      }
      if clientId.Some? && clientId.value != "" && activePresenter != clientId {
        return false;
      }
      screenSharingActive := false;
      lastScreenFrameTime := None;
      ok := true;
    }

    /** `update_screen_frame_time` */
    method UpdateScreenFrameTime(now: real)
      requires Valid()
      modifies this`lastScreenFrameTime
      ensures Valid()
      ensures lastScreenFrameTime == Some(now)
    {
      lastScreenFrameTime := Some(now);
    }

    /**
      `add_chat_message`: only chat messages with a `message` entry and a sender are kept, at most
      1000; `raised` where the `in` test raises on a chat message's data, which changes nothing.
     */
    method AddChatMessage(m: TCPMessage) returns (raised: bool)
      modifies this`chatHistory
      ensures raised <==> m.msgType == Chat && PyIn("message", m.data).None?
      ensures chatHistory == if KeptInHistory(m) then KeepLast(old(chatHistory) + [m], MaxChatHistory) else old(chatHistory)
    {
      raised := m.msgType == Chat && PyIn("message", m.data).None?;
      if m.msgType == Chat && PyIn("message", m.data) == Some(true) && m.senderId != "" {
        chatHistory := chatHistory + [m];
        if |chatHistory| > MaxChatHistory {
          chatHistory := chatHistory[|chatHistory| - MaxChatHistory..];
        }
      }
    }

    /** `update_client_heartbeat` */
    method UpdateClientHeartbeat(clientId: string, now: real) returns (ok: bool)
      requires Valid()
      modifies this`clients
      ensures Valid()
      ensures ok <==> clientId in old(clients)
      ensures ok ==> clients == old(clients)[clientId := old(clients)[clientId].(lastHeartbeat := now)]
      ensures !ok ==> clients == old(clients)
    {
      if clientId !in clients {
        return false;
      }
      clients := clients[clientId := clients[clientId].(lastHeartbeat := now)];
      ok := true;
    }

    /** `get_inactive_clients`: silent for longer than the timeout. */
    function InactiveClients(timeout: real, now: real): set<string>
      reads this
    {
      set id | id in clients && now - clients[id].lastHeartbeat > timeout
    }

    /** One pass of `cleanup_inactive_clients` over a client known to be present. */
    method ExpireClient(clientId: string, reason: string, now: real, msgId: string)
      requires Valid() && clientId in clients
      modifies this`clients, this`chatHistory, this`activePresenter, this`activeScreenSharer,
               this`screenSharingActive, this`pendingBroadcasts
      ensures Valid()
      ensures clients == old(clients) - {clientId}
      ensures activePresenter == if old(activePresenter) == Some(clientId) then None else old(activePresenter)
      ensures chatHistory == old(chatHistory) + [CreateClientLeaveMessage(clientId, now, msgId)]
      ensures pendingBroadcasts == old(pendingBroadcasts) +
                [CreateClientDisconnectMessage(clientId, old(clients)[clientId].username, reason, now, msgId)]
      ensures screenSharingActive == old(screenSharingActive) && activeScreenSharer == old(activeScreenSharer)
    {
      pendingBroadcasts := pendingBroadcasts + [CreateClientDisconnectMessage(clientId, clients[clientId].username, reason, now, msgId)];
      var removed := RemoveClient(clientId, now, msgId);
    }

    /**
      `cleanup_inactive_clients`: every client silent for longer than the timeout is removed, with
      one PARTICIPANT_LEFT notice queued and one leave message logged for each, in removal order.
     */
    method CleanupInactiveClients(timeout: real, now: real, msgId: string) returns (removed: seq<string>)
      requires Valid()
      modifies this`clients, this`chatHistory, this`activePresenter, this`activeScreenSharer,
               this`screenSharingActive, this`pendingBroadcasts
      ensures Valid()
      ensures forall id :: id in removed <==> id in old(InactiveClients(timeout, now))
      ensures |removed| == |old(InactiveClients(timeout, now))|
      ensures forall i :: 0 <= i < |removed| ==> removed[i] in old(clients)
      ensures forall id :: id in clients <==> id in old(clients) && id !in old(InactiveClients(timeout, now))
      ensures forall id :: id in clients ==> clients[id] == old(clients)[id]
      ensures InactiveClients(timeout, now) == {}
      ensures activePresenter == if old(activePresenter).Some? && old(activePresenter).value in removed then None
                                 else old(activePresenter)
      ensures pendingBroadcasts == old(pendingBroadcasts) + DisconnectNotices(removed, old(clients), "Connection timeout", now, msgId)
      ensures chatHistory == old(chatHistory) + LeaveMessages(removed, now, msgId)
      ensures screenSharingActive == old(screenSharingActive)
    {
      var inactive := InactiveClients(timeout, now);
      removed := Enumerate(inactive);
      assert forall i :: 0 <= i < |removed| ==> removed[i] in inactive;
      ExpireAll(removed, "Connection timeout", now, msgId);
    }

    /** Removes each of `ids` in turn, queueing a notice and logging a leave message for each. */
    method ExpireAll(ids: seq<string>, reason: string, now: real, msgId: string)
      requires Valid()
      requires forall i :: 0 <= i < |ids| ==> ids[i] in clients
      requires forall i, j :: 0 <= i < j < |ids| ==> ids[i] != ids[j]
      modifies this`clients, this`chatHistory, this`activePresenter, this`activeScreenSharer,
               this`screenSharingActive, this`pendingBroadcasts
      ensures Valid()
      ensures forall id :: id in clients <==> id in old(clients) && id !in ids
      ensures forall id :: id in clients ==> clients[id] == old(clients)[id]
      ensures activePresenter == if old(activePresenter).Some? && old(activePresenter).value in ids then None
                                 else old(activePresenter)
      ensures pendingBroadcasts == old(pendingBroadcasts) + DisconnectNotices(ids, old(clients), reason, now, msgId)
      ensures chatHistory == old(chatHistory) + LeaveMessages(ids, now, msgId)
      ensures screenSharingActive == old(screenSharingActive)
    {
      ghost var start := Removal();
      for k := 0 to |ids|
        invariant Valid()
        invariant ExpiredPrefix(ids, k, reason, now, msgId, start, Removal())
        invariant screenSharingActive == old(screenSharingActive)
      {
        ghost var before := Removal();
        NextIsPresent(ids, k, reason, now, msgId, start, before);
        ExpireClient(ids[k], reason, now, msgId);
        ExpireStep(ids, k, reason, now, msgId, start, before, Removal());
      }
      assert ids[..|ids|] == ids;
    }

    /** The part of the session that removing clients changes. */
    ghost function Removal(): RemovalState
      reads this`clients, this`activePresenter, this`pendingBroadcasts, this`chatHistory
    {
      RemovalState(clients, activePresenter, pendingBroadcasts, chatHistory)
    }

    /** `graceful_client_removal`: a PARTICIPANT_LEFT notice is queued, then the client removed. */
    method GracefulClientRemoval(clientId: string, reason: string, now: real, msgId: string) returns (ok: bool)
      requires Valid()
      modifies this`clients, this`chatHistory, this`activePresenter, this`activeScreenSharer,
               this`screenSharingActive, this`pendingBroadcasts
      ensures Valid()
      ensures ok <==> clientId in old(clients)
      ensures !ok ==> clients == old(clients) && pendingBroadcasts == old(pendingBroadcasts) && chatHistory == old(chatHistory)
      ensures ok ==> clients == old(clients) - {clientId} &&
                     pendingBroadcasts == old(pendingBroadcasts) +
                       [CreateClientDisconnectMessage(clientId, old(clients)[clientId].username, reason, now, msgId)]
      ensures ok ==> chatHistory == old(chatHistory) + [CreateClientLeaveMessage(clientId, now, msgId)]
      ensures activePresenter == if ok && old(activePresenter) == Some(clientId) then None else old(activePresenter)
      ensures screenSharingActive == old(screenSharingActive) && activeScreenSharer == old(activeScreenSharer)
    {
      if clientId !in clients {
        return false;
      }
      ExpireClient(clientId, reason, now, msgId);
      ok := true;
    }

    /** `update_client_udp_address` */
    method UpdateClientUdpAddress(clientId: string, address: (string, int)) returns (ok: bool)
      requires Valid()
      modifies this`clients
      ensures Valid()
      ensures ok <==> clientId in old(clients)
      ensures ok ==> clients == old(clients)[clientId := old(clients)[clientId].(udpAddress := Some(address))]
      ensures !ok ==> clients == old(clients)
    {
      if clientId !in clients {
        return false;
      }
      clients := clients[clientId := clients[clientId].(udpAddress := Some(address))];
      ok := true;
    }

    /** `get_clients_with_udp`, as the set of their ids. */
    function ClientsWithUdp(): set<string>
      reads this
    {
      set id | id in clients && clients[id].udpAddress.Some?
    }

    // ------------------------------------------------------------ shared files

    /** `add_file_metadata`: valid metadata replaces any upload left in progress under its id. */
    method AddFileMetadata(m: FileMetadata) returns (ok: bool)
      requires Valid()
      modifies this`uploads, this`sharedFiles
      ensures Valid()
      ensures ok <==> IsValid(m)
      ensures ok ==> sharedFiles == old(sharedFiles)[m.fileId := m] && uploads == old(uploads) - {m.fileId}
      ensures !ok ==> sharedFiles == old(sharedFiles) && uploads == old(uploads)
    {
      if !IsValid(m) {
        return false;
      }
      if m.fileId in uploads {
        CleanupFailedUpload(m.fileId);
      }
      sharedFiles := sharedFiles[m.fileId := m];
      ok := true;
    }

    /** `start_file_upload`: `created` is whether the temporary file could be created. */
    method StartFileUpload(m: FileMetadata, created: bool, now: real) returns (ok: bool, err: string)
      requires Valid()
      modifies this`uploads
      ensures Valid()
      ensures m.fileId in old(uploads) ==> !ok && err == "Upload already in progress"
      ensures ok <==> m.fileId !in old(uploads) && created
      ensures ok ==> uploads == old(uploads)[m.fileId := Upload(m, 0, 0, now)] && err == ""
      ensures !ok ==> uploads == old(uploads)
    {
      if m.fileId in uploads {
        return false, "Upload already in progress";
      }
      if !created {
        return false, "could not open temporary file";
      }
      uploads := uploads[m.fileId := Upload(m, 0, 0, now)];
      ok, err := true, "";
    }

    /**
      `process_file_chunk`. The file-system outcomes are parameters: `written` (the chunk write),
      `moved` (closing and renaming a finished file) and `hashMatches` (the integrity check,
      consulted only when the metadata carries a hash). A failed write or move drops the upload.
     */
    method ProcessFileChunk(fileId: string, totalChunks: int, written: bool, moved: bool, hashMatches: bool,
                            now: real, msgId: string)
      returns (ok: bool, err: string, complete: bool)
      requires Valid()
      modifies this`uploads, this`sharedFiles, this`pendingBroadcasts
      ensures Valid()
      ensures fileId !in old(uploads) ==>
                !ok && err == "No upload in progress for this file" && !complete && uploads == old(uploads)
      ensures fileId in old(uploads) && ChunkStep(old(uploads)[fileId], totalChunks).Err? ==>
                !ok && err == "Total chunks mismatch" && !complete && uploads == old(uploads)
      ensures complete ==> ok
      ensures ok <==> fileId in old(uploads) && ChunkStep(old(uploads)[fileId], totalChunks).Ok? && written &&
                      (ChunkCompletes(ChunkStep(old(uploads)[fileId], totalChunks).value, totalChunks) ==>
                         moved && (HashGiven(old(uploads)[fileId].metadata) ==> hashMatches))
      ensures ok ==> var u := ChunkStep(old(uploads)[fileId], totalChunks).value;
                     complete == ChunkCompletes(u, totalChunks) &&
                     (complete ==> uploads == old(uploads) - {fileId} && sharedFiles == old(sharedFiles)[fileId := u.metadata] &&
                                   pendingBroadcasts == old(pendingBroadcasts) + [FileAvailableMessage(u.metadata, now, msgId)]) &&
                     (!complete ==> uploads == old(uploads)[fileId := u])
      ensures !complete ==> sharedFiles == old(sharedFiles) && pendingBroadcasts == old(pendingBroadcasts)
      // a failed write or move drops the upload; a failed hash check keeps it with the chunk counted
      ensures fileId in old(uploads) && ChunkStep(old(uploads)[fileId], totalChunks).Ok? && !ok ==>
                uploads == if !written || !moved then old(uploads) - {fileId}
                           else old(uploads)[fileId := ChunkStep(old(uploads)[fileId], totalChunks).value]
    {
      if fileId !in uploads {
        return false, "No upload in progress for this file", false;
      }
      var step := ChunkStep(uploads[fileId], totalChunks);
      if step.Err? {
        return false, step.error, false;
      }
      if !written {
        CleanupFailedUpload(fileId);
        return false, "chunk write failed", false;
      }
      var u := step.value;
      uploads := uploads[fileId := u];
      complete := ChunkCompletes(u, totalChunks);
      if complete {
        if !moved {
          CleanupFailedUpload(fileId);
          return false, "could not move finished file", false;
        }
        if HashGiven(u.metadata) && !hashMatches {
          return false, "File integrity check failed", false;
        }
        uploads := uploads - {fileId};
        sharedFiles := sharedFiles[fileId := u.metadata];
        pendingBroadcasts := pendingBroadcasts + [FileAvailableMessage(u.metadata, now, msgId)];
      }
      ok, err := true, "";
    }

    /** `get_pending_broadcasts`: hands over the queue and empties it. */
    method GetPendingBroadcasts() returns (b: seq<TCPMessage>)
      requires Valid()
      modifies this`pendingBroadcasts
      ensures Valid()
      ensures b == old(pendingBroadcasts) && pendingBroadcasts == []
    {
      b := pendingBroadcasts;
      pendingBroadcasts := [];
    }

    /** `_cleanup_failed_upload` (closing the handle and deleting the temp file are not modelled). */
    method CleanupFailedUpload(fileId: string)
      requires Valid()
      modifies this`uploads
      ensures Valid()
      ensures uploads == old(uploads) - {fileId}
    {
      uploads := uploads - {fileId};
    }

    /** `get_file_metadata` */
    function GetFileMetadata(fileId: string): Option<FileMetadata>
      reads this
    {
      if fileId in sharedFiles then Some(sharedFiles[fileId]) else None
    }

    /** `remove_shared_file`: only the uploader may remove; `deleted` is whether the file-system removal went through. */
    method RemoveSharedFile(fileId: string, requesterId: string, deleted: bool) returns (ok: bool)
      modifies this`sharedFiles
      ensures ok <==> fileId in old(sharedFiles) && old(sharedFiles)[fileId].uploaderId == requesterId && deleted
      ensures sharedFiles == if ok then old(sharedFiles) - {fileId} else old(sharedFiles)
    {
      if fileId !in sharedFiles || sharedFiles[fileId].uploaderId != requesterId || !deleted {
        return false;
      }
      sharedFiles := sharedFiles - {fileId};
      ok := true;
    }
  }

  /** The leave messages `remove_client` logs for `ids`, in order. */
  function LeaveMessages(ids: seq<string>, now: real, msgId: string): seq<TCPMessage>
  {
    if ids == [] then [] else LeaveMessages(ids[..|ids| - 1], now, msgId) + [CreateClientLeaveMessage(ids[|ids| - 1], now, msgId)]
  }

  /** The PARTICIPANT_LEFT notices queued for `ids`, in order. */
  function DisconnectNotices(ids: seq<string>, clients: map<string, Client>, reason: string, now: real, msgId: string): seq<TCPMessage>
    requires forall i :: 0 <= i < |ids| ==> ids[i] in clients
  {
    if ids == [] then []
    else DisconnectNotices(ids[..|ids| - 1], clients, reason, now, msgId) +
         [CreateClientDisconnectMessage(ids[|ids| - 1], clients[ids[|ids| - 1]].username, reason, now, msgId)]
  }

  /** Expiring one more client extends both logs by that client's entry. */
  lemma NoticesGrow(ids: seq<string>, k: nat, clients: map<string, Client>, reason: string, now: real, msgId: string)
    requires k < |ids| && forall i :: 0 <= i < |ids| ==> ids[i] in clients
    ensures LeaveMessages(ids[..k + 1], now, msgId) == LeaveMessages(ids[..k], now, msgId) + [CreateClientLeaveMessage(ids[k], now, msgId)]
    ensures DisconnectNotices(ids[..k + 1], clients, reason, now, msgId) ==
            DisconnectNotices(ids[..k], clients, reason, now, msgId) + [CreateClientDisconnectMessage(ids[k], clients[ids[k]].username, reason, now, msgId)]
    ensures forall x :: x in ids[..k + 1] <==> x in ids[..k] || x == ids[k]
    ensures ids[..k + 1] == ids[..k] + [ids[k]]
  {
    assert ids[..k + 1][..k] == ids[..k];
    assert ids[..k + 1] == ids[..k] + [ids[k]];
  }

  /** Clients, presenter, queued notices and chat log: what a run of removals changes. */
  datatype RemovalState = RemovalState(clients: map<string, Client>, presenter: Option<string>,
                                       pending: seq<TCPMessage>, chat: seq<TCPMessage>)

  /** `now_` is `start` with the first `k` of `ids` expired, in order. */
  ghost predicate ExpiredPrefix(ids: seq<string>, k: nat, reason: string, now: real, msgId: string,
                                start: RemovalState, now_: RemovalState)
  {
    && k <= |ids|
    && (forall i :: 0 <= i < |ids| ==> ids[i] in start.clients)
    && ClientsExpired(ids[..k], start, now_)
    && now_.pending == start.pending + DisconnectNotices(ids[..k], start.clients, reason, now, msgId)
    && now_.chat == start.chat + LeaveMessages(ids[..k], now, msgId)
  }

  /** Exactly the clients of `done` are gone, the rest untouched, and the presenter role went with its holder. */
  ghost predicate ClientsExpired(done: seq<string>, start: RemovalState, now_: RemovalState)
  {
    && (forall id :: id in now_.clients <==> id in start.clients && id !in done)
    && (forall id :: id in now_.clients ==> now_.clients[id] == start.clients[id])
    && now_.presenter == (if start.presenter.Some? && start.presenter.value in done then None else start.presenter)
  }

  /** Expiring one more client keeps the registry in step with the removed ids. */
  lemma ClientsExpireStep(done: seq<string>, id: string, start: RemovalState, before: RemovalState, after: RemovalState)
    requires ClientsExpired(done, start, before) && id in before.clients
    requires after.clients == before.clients - {id}
    requires after.presenter == if before.presenter == Some(id) then None else before.presenter
    ensures ClientsExpired(done + [id], start, after)
  {
  }

  /** The next client to expire is still registered, unchanged since the start. */
  lemma NextIsPresent(ids: seq<string>, k: nat, reason: string, now: real, msgId: string,
                      start: RemovalState, before: RemovalState)
    requires ExpiredPrefix(ids, k, reason, now, msgId, start, before) && k < |ids|
    requires forall i, j :: 0 <= i < j < |ids| ==> ids[i] != ids[j]
    ensures ids[k] in before.clients && before.clients[ids[k]] == start.clients[ids[k]]
  {
    assert ids[k] !in ids[..k];
    assert ids[k] in start.clients;
  }

  /** Expiring the next client of `ids` extends the expired prefix by one. */
  lemma ExpireStep(ids: seq<string>, k: nat, reason: string, now: real, msgId: string,
                   start: RemovalState, before: RemovalState, after: RemovalState)
    requires ExpiredPrefix(ids, k, reason, now, msgId, start, before) && k < |ids|
    requires ids[k] in before.clients
    requires after.clients == before.clients - {ids[k]}
    requires after.presenter == if before.presenter == Some(ids[k]) then None else before.presenter
    requires after.pending == before.pending +
               [CreateClientDisconnectMessage(ids[k], before.clients[ids[k]].username, reason, now, msgId)]
    requires after.chat == before.chat + [CreateClientLeaveMessage(ids[k], now, msgId)]
    ensures ExpiredPrefix(ids, k + 1, reason, now, msgId, start, after)
  {
    var id := ids[k];
    NoticesGrow(ids, k, start.clients, reason, now, msgId);
    ClientsExpireStep(ids[..k], id, start, before, after);
    AppendAssoc(start.pending, DisconnectNotices(ids[..k], start.clients, reason, now, msgId),
                [CreateClientDisconnectMessage(id, start.clients[id].username, reason, now, msgId)]);
    AppendAssoc(start.chat, LeaveMessages(ids[..k], now, msgId), [CreateClientLeaveMessage(id, now, msgId)]);
  }

  lemma AppendAssoc<T>(a: seq<T>, b: seq<T>, c: seq<T>)
    ensures (a + b) + c == a + (b + c)
  {
  }

  /** One leave message per removed client, sent in its name, in removal order. */
  lemma {:induction false} LeaveMessagesContent(ids: seq<string>, now: real, msgId: string)
    ensures |LeaveMessages(ids, now, msgId)| == |ids|
    ensures forall i :: 0 <= i < |ids| ==>
              LeaveMessages(ids, now, msgId)[i].msgType == ClientLeave && LeaveMessages(ids, now, msgId)[i].senderId == ids[i]
  {
    if ids != [] {
      LeaveMessagesContent(ids[..|ids| - 1], now, msgId);
    }
  }

  /** One notice per removed client, from the server, naming the client, its username and the reason, in removal order. */
  lemma {:induction false} DisconnectNoticesContent(ids: seq<string>, clients: map<string, Client>, reason: string, now: real, msgId: string)
    requires forall i :: 0 <= i < |ids| ==> ids[i] in clients
    ensures |DisconnectNotices(ids, clients, reason, now, msgId)| == |ids|
    ensures forall i :: 0 <= i < |ids| ==>
              var n := DisconnectNotices(ids, clients, reason, now, msgId)[i];
              && n.msgType == ParticipantLeft && n.senderId == "server"
              && n.data == JObject(map["client_id" := JStr(ids[i]), "username" := JStr(clients[ids[i]].username),
                                       "reason" := JStr(reason)])
  {
    if ids != [] {
      DisconnectNoticesContent(ids[..|ids| - 1], clients, reason, now, msgId);
    }
  }

  /** `if metadata.file_hash:` */
  predicate HashGiven(m: FileMetadata)
  {
    m.fileHash.Some? && m.fileHash.value != ""
  }

  /** The FILE_AVAILABLE notice `_broadcast_file_metadata` queues. */
  function FileAvailableMessage(m: FileMetadata, now: real, msgId: string): (r: TCPMessage)
    ensures r.msgType == FileAvailable && r.senderId == "server" && r.data == JObject(ToDict(m))
  {
    NewTcpMessage(FileAvailable, "server", JObject(ToDict(m)), None, None, now, msgId)
  }

  /**
    Removing the presenter while the screen is shared leaves sharing switched on with no
    presenter: the removal only stops sharing for the recorded sharer, which is never set.
   */
  method RemovingSharingPresenterKeepsSharing() returns (sharing: bool, presenter: Option<string>)
    ensures sharing && presenter.None?
  {
    var sm := new SessionManager();
    var id := sm.AddClient("alice", "c1", 0.0, "m1");
    var granted, _ := sm.RequestPresenterRole(id);
    var started := sm.StartScreenSharing(id, 1.0);
    var removed := sm.RemoveClient(id, 2.0, "m2");
    sharing, presenter := sm.screenSharingActive, sm.activePresenter;
  }

  /** A second stop right after a successful one is refused and changes nothing. */
  method SecondStopIsRefused() returns (first: bool, second: bool)
    ensures first && !second
  {
    var sm := new SessionManager();
    var id := sm.AddClient("bob", "c2", 0.0, "m1");
    var granted, _ := sm.RequestPresenterRole(id);
    var started := sm.StartScreenSharing(id, 1.0);
    first := sm.StopScreenSharing(Some(id));
    second := sm.StopScreenSharing(Some(id));
  }
}
