# zooom core, modelled in Dafny

zooom is a conferencing suite for a local network. A Python server keeps the session: who is
present, who holds the presenter role, the chat history and the files shared. It relays camera
video, mixed microphone audio and the presenter's screen between clients. A Tk client captures
and plays these media streams and keeps the connection and the GUI state that depends on them.

This project models the sequential logic under the sockets, threads, codecs and widgets. One
Dafny module stands for each source file of that logic:

- `frame_sequencer.dfy`: the per-source reorder buffer for video frames. It is a heap ordered by
  capture time and sequence number, with its readiness rule, duplicate, age and capacity eviction,
  and the per-client manager.
- `optimized_video_conferencing.dfy`: the temporal filter over the sequencer and the sequencer
  table.
- `session_manager.dfy`: the server's session registry. It covers participants, the presenter
  role, the screen-sharing flag, the bounded chat history, heartbeat expiry, the queue of pending
  broadcasts and chunked uploads.
- `media_relay.dfy`, `pcm.dfy`: the server's audio mixer, its 16-bit PCM averaging, the video and
  screen relays, and the choice of fan-out targets.
- `network_handler.dfy`, `networking.dfy`, `bytes.dfy`: the server's message dispatch, chat
  validation, broadcast exclusion, and the 4-byte big-endian length-prefix framing.
- `messages.dfy`, `json.dfy`, `hex.dfy`: the TCP and UDP wire formats with their round trips, the
  message factory and the validators.
- `performance_monitor.dfy`, `video_optimization.dfy`: quality tiers, packet-loss accounting, the
  five-rung bitrate ladder, the drop-oldest frame buffer and the bounded timing table.
- `connection_manager.dfy`, `screen_manager.dfy`, `screen_capture.dfy`, `screen_playback.dfy`,
  `video_capture.dfy`, `video_playback.dfy`, `audio_capture.dfy`, `audio_playback.dfy`,
  `audio_manager.dfy`: the client's state machines, sequence counters and bounded buffers.
- `extreme_video_optimizer.dfy`, `stable_video_system.dfy`, `ultra_stable_gui.dfy`: per-client rate
  limiters, error counters and display queues.
- `gui_manager.dfy`: the video-slot table, the video grid, the chat panel and the input
  validators.
- `file_metadata.dfy`: the metadata validity check, filename sanitising, the dictionary round trip
  and the MIME lookup.
- `text.dfy`, `wrappers.dfy`: helpers.

Objects whose fields the source updates in place are classes. Their methods state the whole new
state. Pure decisions are functions, and the properties relating several calls are lemmas or
small scenario methods.

Clocks, fresh identifiers, device reads, codec results and network outcomes are parameters.
What a component hands to its collaborators is recorded in sequence fields (`sent`, `emitted`,
`written`, `dispatched`, ...), so contracts can state it.

Some behaviour of the source looks surprising but is kept as written, and the model states it:

- a head frame the sequencer finds stale blocks the sequencer until age cleanup;
- the temporal validator admits frames the sequencer calls stale, and its record can move
  backwards;
- adjusted capture timestamps can decrease;
- removing a sharing presenter leaves sharing on with no presenter;
- the mixed audio goes back to its own contributors;
- `_get_or_assign_video_slot` never assigns;
- the `frame_queue` of an ultra-stable widget is never read;
- unregistering a client from the extreme optimizer keeps its display callback;
- `start_audio` reports video off;
- an empty audio chunk counts as an underrun;
- a reconnect ends the client's presenter role;
- `get_safe_filename` leaves `../` in a name the path check accepts;
- `load_chat_history` does not apply the 500-entry cap.

## Model

| member | source | states |
|---|---|---|
| FrameSequencing.HeapPush | client/frame_sequencer.py:136-141 | pushing an entry keeps the heap in (capture timestamp, sequence) order and adds exactly that entry |
| FrameSequencing.PushKeeps | client/frame_sequencer.py:136 | after a push the new entry and every old entry are in the heap |
| FrameSequencing.PushBackHead | client/frame_sequencer.py:164-185 | popping the head and pushing it back when it is not ready restores the heap exactly |
| FrameSequencing.CheckReadiness | client/frame_sequencer.py:189-237 | the first frame is always ready; a frame is stale exactly when something was shown and it is more than 5 ms older than the last shown one; a frame behind in sequence is ready exactly when more than 1 ms newer; a frame not stale and next in sequence is ready with no gap; two ahead it waits while it arrived less than 50 ms ago, then skips one; further ahead it skips the numbers in between |
| FrameSequencing.StaleIsPermanent | client/frame_sequencer.py:204-211 | a frame refused as too old stays refused at any later time |
| FrameSequencing.SmallGapWaitIsBounded | client/frame_sequencer.py:221-228 | a frame two ahead waits at most 10 ms after arrival, then is shown with one gap counted |
| FrameSequencing.WaitingBehindIsPermanent | client/frame_sequencer.py:231-234 | a waiting frame not two ahead is behind in sequence and waits at every later time |
| FrameSequencing.FirstLive | client/frame_sequencer.py:163-167 | the first heap entry whose frame is still buffered; every entry before it is dead |
| FrameSequencing.FreshPart | client/frame_sequencer.py:416-428 | exactly the buffered frames no older than 0.5 s survive the age rule, unchanged |
| FrameSequencing.FrameSequencer.constructor | client/frame_sequencer.py:33-69 | empty heap and buffer, nothing displayed (-1, 0.0), no base timestamp, zero offset and statistics |
| FrameSequencing.FrameSequencer.AddFrame | client/frame_sequencer.py:71-147 | first frame fixes base timestamp and clock offset; duplicates and frames older than 0.5 s after offset correction are refused and counted; an accepted frame is filed and pushed, then cleanup runs; display markers never change |
| FrameSequencing.FrameSequencer.StoreFrame | client/frame_sequencer.py:122-144 | the frame is pushed on the heap and the buffer becomes the newest fresh frames within capacity |
| FrameSequencing.FrameSequencer.CleanupOldFrames | client/frame_sequencer.py:414-442 | after cleanup the buffer holds only frames at most 0.5 s old, and at most max_buffer_size of them, keeping the latest capture timestamps; age drops are counted |
| FrameSequencing.FrameSequencer.PurgeExpired | client/frame_sequencer.py:416-428 | every frame older than 0.5 s is removed and counted |
| FrameSequencing.FrameSequencer.EnforceCapacity | client/frame_sequencer.py:431-442 | the buffer is cut to max_buffer_size frames, the ones with the earliest capture timestamps going first |
| FrameSequencing.FrameSequencer.PopFirstLive | client/frame_sequencer.py:163-167 | dead heap entries are discarded until a buffered one is found, the heap staying sorted |
| FrameSequencing.FrameSequencer.GetNextFrame | client/frame_sequencer.py:149-187 | a released frame was buffered and belongs to this client; the display markers never go backwards; if nothing is released the buffer is unchanged; the new state and the frame are exactly those `Release` gives for the old state |
| FrameSequencing.FrameSequencer.ReleaseInPlace | client/frame_sequencer.py:156-187 | the pop, readiness check and push-back done in place leave exactly the state, and return exactly the frame, that `Release` gives for the old state |
| FrameSequencing.Release | client/frame_sequencer.py:149-187 | one `get_next_frame` on a value: the new state keeps the heap sorted and every buffered frame under its own number |
| FrameSequencing.ReleaseFacts | client/frame_sequencer.py:163-187 | a released frame is the buffered frame of the least live heap entry and was ready; it alone leaves the buffer, the sequence marker moves to the max and the display count grows by one; when nothing is released the buffer is unchanged; markers never go backwards and the clock fields stay |
| FrameSequencing.FrameSequencer.Reset | client/frame_sequencer.py:456-475 | heap and buffer empty, markers back to -1 and 0.0, no base timestamp, zero offset and statistics |
| FrameSequencing.OldestFrame | client/frame_sequencer.py:433-436 | a buffered frame with the earliest capture timestamp, the first the sort by newest cuts off |
| FrameSequencing.LeastLiveEntry | client/frame_sequencer.py:163-170 | in a sorted heap the first live entry is the least of all live entries, so frames come out in capture order |
| FrameSequencing.LiveEntriesSurvive | client/frame_sequencer.py:163-167 | releasing the first live entry loses no other live frame's entry |
| FrameSequencing.DrainConsecutiveRun | client/frame_sequencer.py:149-187 | a buffered run of consecutive sequence numbers is released completely, in sequence order |
| FrameSequencing.ReleaseNextOfRun | client/frame_sequencer.py:149-187 | one call on a consecutive run releases the next sequence number |
| FrameSequencing.RunHeadIsNext | client/frame_sequencer.py:163-181 | in a consecutive run the first live entry is the next sequence number and it is ready |
| FrameSequencing.LateFrameBlocksScenario | client/frame_sequencer.py:204-211 | after frame 2 is shown, a late frame 1 captured 33 ms earlier is refused, and it blocks frame 3 behind it |
| FrameSequencing.ShowZeroThenTwo | client/frame_sequencer.py:189-228 | frames 0 and 2 arrive; 0 is shown at once, 2 only after waiting 10 ms for the missing 1 |
| FrameSequencing.FrameSequencingManager.constructor | client/frame_sequencer.py:482-495 | no sequencers or callbacks, global sync on, no global base timestamp, not processing |
| FrameSequencing.FrameSequencingManager.RegisterClient | client/frame_sequencer.py:497-516 | a new client gets a fresh sequencer in the initial state with its buffer size and a callback, and processing starts; a known client is left alone |
| FrameSequencing.FrameSequencingManager.UnregisterClient | client/frame_sequencer.py:518-526 | the client's sequencer and callback are removed; nothing else changes |
| FrameSequencing.FrameSequencingManager.AddFrame | client/frame_sequencer.py:528-556 | an unknown client's frame is refused with nothing changed; otherwise the first frame sets the global base timestamp, only the client's own sequencer changes, and its new state and verdict are exactly those of its own `add_frame` (`Added`, `AddAccepts`) |
| FrameSequencing.FrameSequencingManager.ProcessingTick | client/frame_sequencer.py:568-601 | one pass delivers at most 10 frames per client, each tagged with its own client's id; for every client, its sequencer's new state and the frames tagged with its id, in order, are exactly `Drain` of its old state with a callback and budget 10: the successive `get_next_frame` releases up to the first None |
| FrameSequencing.FrameSequencingManager.TickOne | client/frame_sequencer.py:576-590 | a client's pass: its sequencer's new state and the frames it hands over are exactly `Drain` of the old state, with the callback flag of that client; at most 10 frames, all its own; every other sequencer is untouched |
| FrameSequencing.FrameSequencingManager.StopProcessing | client/frame_sequencer.py:603-608 | processing stops; registrations are kept |
| FrameSequencing.FrameSequencingManager.ResetAll | client/frame_sequencer.py:618-625 | every sequencer is back in its initial state (statistics and clock offset included) and the global base timestamp is forgotten |
| FrameSequencing.DrainSource | client/frame_sequencer.py:578-590 | one client's inner loop: the frames and the new state are exactly `Drain` (successive releases up to the first None or 10); without a callback nothing is handed over yet the one release happens, so a frame it released is lost; the frames handed over were buffered, with those values, and have left the buffer; the frames left are unchanged and nothing enters; markers monotone |
| FrameSequencing.TakeFrames | client/frame_sequencer.py:577-590 | the loop of at most 10 calls, stopping at the first without a frame or a callback, leaves exactly the state and frames `Drain` gives |
| FrameSequencing.Drain | client/frame_sequencer.py:577-590 | the inner loop on values: successive releases, stopping at the first None or after the budget, and after the first call when there is no callback; the state stays consistent |
| FrameSequencing.DrainFacts | client/frame_sequencer.py:577-590 | at most the budget of frames; none without a callback, the state then being that of one release, so a released frame is lost; with a callback the buffer shrinks by exactly the number handed over; the last displayed number never goes back |
| FrameSequencing.DrainTakes | client/frame_sequencer.py:577-590 | nothing enters the buffer, what stays is unchanged, and every frame handed over was buffered with that value and has left it |
| FrameSequencing.FrameSequencingManager.TickClients | client/frame_sequencer.py:576-590 | after the pass over every registered client, each sequencer's new state and the frames tagged with its id are its `Drain`, with at most 10 frames per client, every frame tagged with a registered client |
| OptimizedVideoConferencing.CheckAfterReleaseUsesOldMarkers | client/optimized_video_conferencing.py:67-102 | the progression check runs after the parent has advanced its markers to the frame, so it passes exactly when the frame is not behind the old sequence marker and not more than 10 ms older than the old timestamp marker |
| OptimizedVideoConferencing.ValidatorAdmitsStaleFrames | client/optimized_video_conferencing.py:121-135 | the validator's 10 ms tolerance admits a frame 8 ms behind that the sequencer's 5 ms rule then refuses as stale |
| OptimizedVideoConferencing.TemporalValidator.constructor | client/optimized_video_conferencing.py:117-119 | the recorded timestamp starts at 0.0 |
| OptimizedVideoConferencing.TemporalValidator.ValidateFrameTiming | client/optimized_video_conferencing.py:121-135 | accepted iff nothing was displayed yet or the frame is at most 10 ms behind; first-frame case records the frame, otherwise the record only grows |
| OptimizedVideoConferencing.ValidatorCanMoveBackwards | client/optimized_video_conferencing.py:125-127 | before anything is displayed, a later call with an older timestamp overwrites the record (5.0 then 1.0) |
| OptimizedVideoConferencing.UpdatedRate | client/optimized_video_conferencing.py:104-109 | the ordering rate is recomputed only when frames were processed; it is at most 1, non-negative while violations do not exceed frames, and exactly 1 without violations |
| OptimizedVideoConferencing.OptimizedFrameSequencer.constructor | client/optimized_video_conferencing.py:25-43 | an empty parent sequencer in its initial state with the given buffer size, zeroed ordering statistics and the validator's timestamp at 0.0 |
| OptimizedVideoConferencing.OptimizedFrameSequencer.AddFrame | client/optimized_video_conferencing.py:45-65 | accepted exactly when the frame passes the validator's 10 ms rule, is not yet buffered and, once a base time exists, is at most the maximum age old; a frame failing the validator leaves the parent untouched and is counted as a prevented jump; otherwise the parent takes exactly its own `add_frame` step (`Added`) and an accepted frame is counted and the rate updated; the validator's timestamp moves as `validate_frame_timing` says (`FilteredAdd`) |
| OptimizedVideoConferencing.OptimizedFrameSequencer.GetNextFrame | client/optimized_video_conferencing.py:67-83 | a returned frame was buffered, is this client's and is not behind the old sequence marker; the parent's new state is `Release`'s; the released frame is returned exactly when it passes the check against the advanced markers, and otherwise is counted as a violation and lost from the buffer (`FilteredRelease`) |
| OptimizedVideoConferencing.OptimizedVideoConferencing.constructor | client/optimized_video_conferencing.py:143-168 | no sequencers, inactive, video off, nothing received |
| OptimizedVideoConferencing.OptimizedVideoConferencing.StartVideoConferencing | client/optimized_video_conferencing.py:179-199 | already active: success; otherwise active exactly when the renderer starts |
| OptimizedVideoConferencing.OptimizedVideoConferencing.StopVideoConferencing | client/optimized_video_conferencing.py:201-220 | stopping an active system turns video off and clears every sequencer; an inactive one is left alone |
| OptimizedVideoConferencing.OptimizedVideoConferencing.EnableVideo | client/optimized_video_conferencing.py:222-243 | already on: success; otherwise video is on exactly when capture starts |
| OptimizedVideoConferencing.OptimizedVideoConferencing.DisableVideo | client/optimized_video_conferencing.py:245-250 | video is off afterwards |
| OptimizedVideoConferencing.OptimizedVideoConferencing.ProcessIncomingVideo | client/optimized_video_conferencing.py:252-293 | inactive: nothing changes; otherwise the sender gets a sequencer if it had none (initial state, buffer size 15), other senders are untouched, the received count grows by one exactly when the frame decodes and the sender's sequencer admits it, and that sequencer takes exactly the `FilteredAdd` step for a decoded frame and stays as it was for one that did not decode |
| OptimizedVideoConferencing.OptimizedVideoConferencing.ReceiveVideo | client/optimized_video_conferencing.py:259-293 | the active branch: the sender has a sequencer (a fresh one for a new sender), the received count grows exactly when a decoded frame is admitted, and the sender's sequencer takes the `FilteredAdd` step, or none when nothing decoded |
| OptimizedVideoConferencing.OptimizedVideoConferencing.CountOffer | client/optimized_video_conferencing.py:279-286 | the received count grows by one exactly when the sender's sequencer admits the frame, and that sequencer takes the `FilteredAdd` step; other sequencers are untouched |
| OptimizedVideoConferencing.OptimizedVideoConferencing.EnsureSequencer | client/optimized_video_conferencing.py:260-265 | the sender has a sequencer afterwards; an existing one is kept and a new one is fresh: initial parent state (nothing displayed, nothing buffered, no base time, no offset), buffer size 15, zeroed statistics and validator |
| OptimizedVideoConferencing.OptimizedVideoConferencing.OfferFrame | client/optimized_video_conferencing.py:279-289 | the frame is accepted exactly when the sender's sequencer accepts it; that sequencer takes exactly the `FilteredAdd` step; every other sender's sequencer is untouched |
| OptimizedVideoConferencing.FreshSequencerAdmits | client/optimized_video_conferencing.py:260-265 | a newly created sequencer admits any first frame: nothing displayed, nothing buffered, no base time |
| OptimizedVideoConferencing.OptimizedVideoConferencing.OnRemoteVideoFrame | client/optimized_video_conferencing.py:311-328 | an unknown client shows nothing and nothing changes; for a known client its sequencer takes exactly the `FilteredRelease` step and the frame shown is the one that step returns, which is that client's; the accuracy figures are copied from its statistics when a frame is shown and frames were processed, and kept otherwise; other clients' sequencers are untouched |
| OptimizedVideoConferencing.OptimizedVideoConferencing.NextFrom | client/optimized_video_conferencing.py:315-318 | only the client's own sequencer changes: it takes exactly the `FilteredRelease` step, its validator is untouched, and a returned frame is that client's |
| OptimizedVideoConferencing.OptimizedVideoConferencing.OnVideoStreamStatus | client/optimized_video_conferencing.py:343-350 | a stream going inactive drops that client's sequencer; an active one changes nothing |
| Sessions.CappedAppend | server/session_manager.py:506-513 | after appending and trimming, the new message is last, the history never exceeds 1000 entries, and below the cap nothing is dropped |
| Sessions.ChunkStep | server/session_manager.py:791-802 | the first chunk fixes the total; a different total later is refused as a mismatch; otherwise the chunk is counted and the metadata kept |
| Sessions.ConsistentChunksComplete | server/session_manager.py:791-805 | chunks that all announce the same total n are all accepted, and the upload is complete exactly from the n-th chunk on |
| Sessions.SessionManager.constructor | server/session_manager.py:52-69 | no clients, presenter, chat, files or uploads; screen sharing off; nothing pending |
| Sessions.SessionManager.AddClient | server/session_manager.py:71-97 | the new client is filed under a fresh id with default media flags and both timestamps at now, and a join message is appended to the chat history |
| Sessions.SessionManager.RemoveClient | server/session_manager.py:99-132 | succeeds iff the client was known; it is removed, a leave message appended, the presenter role released if it held it, and sharing stopped only if it was the recorded sharer |
| Sessions.SessionManager.UpdateClientMediaStatus | server/session_manager.py:178-203 | a known client's video and audio flags are updated where given, nothing else changes; an unknown client fails |
| Sessions.SessionManager.SetPresenter | server/session_manager.py:205-230 | a known client becomes the only presenter, every other client's flag cleared; an unknown client fails and nothing changes |
| Sessions.SessionManager.RequestPresenterRole | server/session_manager.py:232-257 | granted iff the client is known and nobody else presents; an unknown client and a taken role are refused with their messages and change nothing |
| Sessions.SessionManager.ClearPresenter | server/session_manager.py:259-275 | reports whether there was a presenter; afterwards nobody presents and every flag is cleared |
| Sessions.SessionManager.GetPresenter | server/session_manager.py:277-287 | a client is returned iff a presenter is recorded, and it is that client, flagged as presenter |
| Sessions.SessionManager.StartScreenSharing | server/session_manager.py:370-393 | succeeds iff the client is known and is the presenter; then sharing is on and the frame time is now; otherwise nothing changes |
| Sessions.SessionManager.StopScreenSharing | server/session_manager.py:395-418 | succeeds iff sharing is on and no non-presenter id is given; then sharing is off and the frame time cleared |
| Sessions.SessionManager.UpdateScreenFrameTime | server/session_manager.py:430-433 | the last frame time becomes now |
| Sessions.SessionManager.AddChatMessage | server/session_manager.py:496-513 | only chat messages with a message entry and a sender are recorded, appended and cut to the 1000 newest; a chat message whose data cannot be searched for the key raises and records nothing |
| Sessions.SessionManager.UpdateClientHeartbeat | server/session_manager.py:525-540 | a known client's heartbeat becomes now, nothing else changes; an unknown client fails |
| Sessions.SessionManager.CleanupInactiveClients | server/session_manager.py:542-597 | exactly the clients silent longer than the timeout are removed, each with a leave message and a "Connection timeout" disconnect notice, in the order returned; the others are untouched and none inactive remains |
| Sessions.SessionManager.ExpireAll | server/session_manager.py:572-590 | each listed client is removed in turn with its notice and leave message; the presenter role is released if its holder was among them |
| Sessions.SessionManager.ExpireClient | server/session_manager.py:572-590 | one client removed with a disconnect notice carrying its username and a leave message |
| Sessions.SessionManager.GracefulClientRemoval | server/session_manager.py:599-633 | succeeds iff the client is known; then a disconnect notice with the reason is queued, a leave message is added to the history, the client is removed and a presenting client loses the presenter role; screen-sharing state is left alone; otherwise nothing changes |
| Sessions.SessionManager.UpdateClientUdpAddress | server/session_manager.py:653-669 | a known client's UDP address is recorded, nothing else changes; an unknown client fails |
| Sessions.SessionManager.AddFileMetadata | server/session_manager.py:705-729 | valid metadata is stored and any stale upload under its id dropped; invalid metadata changes nothing |
| Sessions.SessionManager.StartFileUpload | server/session_manager.py:731-773 | refused while an upload with that id is in progress; otherwise tracked from zero chunks iff the temporary file could be created |
| Sessions.SessionManager.ProcessFileChunk | server/session_manager.py:775-846 | an unknown upload or a total mismatch fails; a written chunk is counted; on completion the upload moves to the shared files and a file-available message is queued, unless the hash check fails; a failed write or move drops the upload, a failed hash check keeps it with the chunk counted |
| Sessions.SessionManager.GetPendingBroadcasts | server/session_manager.py:871-875 | returns the queued broadcasts in order and empties the queue |
| Sessions.SessionManager.CleanupFailedUpload | server/session_manager.py:877-902 | the upload's tracking entry is gone |
| Sessions.SessionManager.RemoveSharedFile | server/session_manager.py:950-986 | removed iff the file is shared, the requester uploaded it and deleting the stored copy succeeds |
| Sessions.ClientsExpireStep | server/session_manager.py:580-590 | removing one more inactive client keeps the removed clients gone and the others unchanged |
| Sessions.NextIsPresent | server/session_manager.py:566-570 | in a list of distinct ids, the next one to expire is still present and unchanged when its turn comes |
| Sessions.ExpireStep | server/session_manager.py:572-590 | one more expiry extends the prefix: client gone, its notice and leave message appended in order |
| Sessions.LeaveMessagesContent | server/session_manager.py:120-121 | one leave message per removed client, in order, each naming that client |
| Sessions.DisconnectNoticesContent | server/session_manager.py:576-583 | one disconnect notice per removed client, in order, with its id, username and reason |
| Sessions.FileAvailableMessage | server/session_manager.py:848-869 | a file-available message from "server" carrying the metadata's dictionary |
| Sessions.RemovingSharingPresenterKeepsSharing | server/session_manager.py:114-127 | removing the presenter while it shares the screen releases the role but leaves sharing on, since the recorded sharer is never set |
| Sessions.SecondStopIsRefused | server/session_manager.py:405-418 | after a successful stop, a second stop is refused |
| MediaRelayModel.Heads | server/media_relay.py:199-202 | one front payload per speaker with a non-empty buffer, never more than there are speakers |
| MediaRelayModel.Decodable | server/media_relay.py:205-211 | only payloads that unpack as 16-bit samples are mixed, and each unpacked sample is in range; an odd-length payload is skipped |
| MediaRelayModel.PopEachSpec | server/media_relay.py:199-202 | one mixing pass pops the front of every speaker's buffer exactly once and leaves every other buffer alone |
| MediaRelayModel.MixedPayload | server/media_relay.py:215-226 | nothing to mix gives no payload; otherwise the payload unpacks to the clamped floor average of the sources |
| MediaRelayModel.SingleSpeakerPassesThrough | server/media_relay.py:228-254 | a single decodable speaker's payload is relayed unchanged |
| MediaRelayModel.AudioMixer.constructor | server/media_relay.py:38-59 | no buffers, not mixing, all counts zero, no times, no mixed-audio callback |
| MediaRelayModel.AudioMixer.SetMixedAudioCallback | server/media_relay.py:61-68 | the mixer has a mixed-audio callback afterwards |
| MediaRelayModel.AudioMixer.StartMixing | server/media_relay.py:70-98 | always succeeds and mixes afterwards; the start time is set only by the first start |
| MediaRelayModel.AudioMixer.StopMixing | server/media_relay.py:100-115 | stopping a running mixer drops every buffered packet; stopping a stopped one does nothing |
| MediaRelayModel.AudioMixer.AddAudioStream | server/media_relay.py:117-136 | the packet is appended to its sender's buffer, which keeps only its ten newest packets |
| MediaRelayModel.Buffered | server/media_relay.py:117-136 | buffering adds the sender's key and changes no other client's buffer; the sender's buffer holds between 1 and 10 entries, the newest being the packet's data, time and number |
| MediaRelayModel.AudioMixer.RemoveAudioStream | server/media_relay.py:138-148 | the speaker's buffer is gone and no other changes |
| MediaRelayModel.AudioMixer.MixAudioBuffers | server/media_relay.py:183-226 | every speaker is visited once and its front packet popped; the active count is the number of decodable fronts; the result is their mix, none when nothing decodes |
| MediaRelayModel.AudioMixer.PopFronts | server/media_relay.py:199-202 | visiting the speakers in order pops each front and collects exactly those payloads |
| MediaRelayModel.AudioMixer.MixingStep | server/media_relay.py:150-181 | a stopped mixer changes nothing; otherwise every client buffer loses its oldest entry, and a packet is produced exactly when a mixed-audio callback is set and the decodable heads mix to a non-empty payload: an audio packet from the mixer carrying that mix, numbered by the mixed count, which then grows by one with the mix time set; with no packet both stay |
| MediaRelayModel.VideoBroadcaster.constructor | server/media_relay.py:300-319 | no streams and zero counts |
| MediaRelayModel.VideoBroadcaster.AddVideoStream | server/media_relay.py:330-364 | the sender's stream records the packet time, sequence, count and bytes (starting at one packet for a new sender); other streams are unchanged and the totals grow |
| MediaRelayModel.VideoBroadcaster.RemoveVideoStream | server/media_relay.py:366-381 | the sender's stream is gone |
| MediaRelayModel.VideoBroadcaster.GetActiveVideoClients | server/media_relay.py:402-410 | exactly the senders with a stream, each once |
| MediaRelayModel.VideoBroadcaster.CleanupInactiveStreams | server/media_relay.py:383-400 | exactly the streams silent longer than the timeout are removed and reported; the rest are unchanged |
| MediaRelayModel.FrameBytes | server/media_relay.py:497-499 | no frame data counts zero bytes; hex frame data counts half its length; data that cannot be searched for the key, or frame data without a length, is an error |
| MediaRelayModel.ScreenShareRelay.constructor | server/media_relay.py:461-472 | no frames, bytes, time or presenter |
| MediaRelayModel.ScreenShareRelay.RelayScreenFrame | server/media_relay.py:483-504 | the frame is counted with its time and presenter; its byte count is added unless measuring it fails |
| MediaRelayModel.VideoTargets | server/media_relay.py:722-757 | video goes to every client with a UDP address except its sender |
| MediaRelayModel.ScreenTargets | server/media_relay.py:759-789 | a screen frame goes over TCP to every client except the presenter, including those without UDP |
| MediaRelayModel.MediaRelay.constructor | server/media_relay.py:528-567 | fresh mixer (with its mixed-audio callback set to the relay's broadcast), broadcaster and screen relay over the given session; stopped; all counts zero |
| MediaRelayModel.MediaRelay.StartRelay | server/media_relay.py:569-603 | always succeeds; the first start records the time and starts the mixer, a second changes nothing |
| MediaRelayModel.MediaRelay.StopRelay | server/media_relay.py:605-619 | stopping a running relay stops the mixer, which drops its buffers; a stopped relay is left alone |
| MediaRelayModel.MediaRelay.SendToEach | server/media_relay.py:712-718 | exactly the targets whose send succeeds are counted |
| MediaRelayModel.MediaRelay.BroadcastMixedAudio | server/media_relay.py:694-720 | a packet that does not serialize goes nowhere; otherwise to every UDP client the send reaches, speakers included |
| MediaRelayModel.MediaRelay.BroadcastVideoPacket | server/media_relay.py:722-757 | a packet that does not serialize goes nowhere; otherwise to every reachable UDP client but the sender |
| MediaRelayModel.MediaRelay.BroadcastScreenFrame | server/media_relay.py:759-789 | to every reachable client but the presenter |
| MediaRelayModel.MediaRelay.ProcessAudioPacket | server/media_relay.py:621-639 | while running the packet is counted and buffered under its sender, the buffers becoming `Buffered` of the old ones; stopped, nothing changes |
| MediaRelayModel.MediaRelay.ProcessVideoPacket | server/media_relay.py:641-659 | while running the packet is counted, recorded in its sender's stream and forwarded to everyone else; the sender never receives its own video |
| MediaRelayModel.MediaRelay.ProcessScreenFrame | server/media_relay.py:661-692 | relayed only while running, sharing is on and the sender is the presenter; then the frame time is updated and the frame goes to everyone but the presenter |
| MediaRelayModel.MediaRelay.MixAndBroadcast | server/media_relay.py:150-181 | a mixed packet comes from the mixer, is audio, and goes to every reachable UDP client |
| MediaRelayModel.MediaRelay.CleanupStep | server/media_relay.py:829-846 | while running, video streams silent for more than thirty seconds are dropped; stopped, nothing changes |
| MediaRelayModel.MediaRelay.RemoveClientAudioStream | server/media_relay.py:801-808 | the client's audio buffer is gone |
| MediaRelayModel.MediaRelay.RemoveClientVideoStream | server/media_relay.py:820-827 | the client's video stream is gone |
| Pcm.SampleOf | server/media_relay.py:206 | a little-endian byte pair read as a signed 16-bit value is always a valid sample |
| Pcm.PairOf | server/media_relay.py:221 | a sample written as a little-endian byte pair reads back as itself |
| Pcm.Unpack | server/media_relay.py:205-211 | unpacking succeeds exactly for even-length payloads and gives half as many valid samples |
| Pcm.Pack | server/media_relay.py:220-225 | packing succeeds exactly when every value fits in 16 bits, giving two bytes per sample |
| Pcm.UnpackPack | server/media_relay.py:205-222 | unpacking packed samples gives them back |
| Pcm.PackUnpack | server/media_relay.py:205-222 | packing unpacked bytes gives them back |
| Pcm.Clamp | server/media_relay.py:251 | the result is a valid sample, and a valid sample is unchanged |
| Pcm.MinLength | server/media_relay.py:241 | the length of the shortest source, which every source reaches |
| Pcm.Mix | server/media_relay.py:228-254 | no sources mix to nothing; otherwise one valid sample per position all sources share |
| Pcm.AverageAudioSamples | server/media_relay.py:228-254 | the loop over shared positions computes exactly the mix |
| Pcm.SumAtBounds | server/media_relay.py:247 | the sum of n samples between lo and hi lies between n times lo and n times hi |
| Pcm.MixWithinSources | server/media_relay.py:245-252 | each mixed sample is the floored mean of the sources' samples there and lies between their minimum and maximum |
| Pcm.SingleSourceMix | server/media_relay.py:228-254 | a lone source is its own mix |
| NetworkHandlerModel.Get | server/network_handler.py:449-452 | `dict.get`: a missing key reads as None, a present key as its value |
| NetworkHandlerModel.ValidChatMeans | server/network_handler.py:802-839 | a chat message is valid exactly when its sender is a session client, its data is a dictionary whose message is a non-blank string of at most 1000 characters, and its sender id matches |
| NetworkHandlerModel.ChatText | server/network_handler.py:823-825 | the text of a chat message exactly when its message field is a string |
| NetworkHandlerModel.WithSenderUsername | server/network_handler.py:370 | the sender's username is added to the data and every other field and header is kept |
| NetworkHandlerModel.ValidChatIsKept | server/network_handler.py:370-373 | a valid chat message tagged with its username is one the session records, with its text unchanged |
| NetworkHandlerModel.TaggedChat | server/network_handler.py:363-376 | a message is passed on iff it is valid; then it is recorded, keeps its text and sender, and carries the sender's username |
| NetworkHandlerModel.BroadcastTargets | server/network_handler.py:704-752 | every client except the excluded one; with no exclusion, every client |
| NetworkHandlerModel.BroadcastNeverEchoes | server/network_handler.py:376 | a client receives a broadcast it sent itself iff it is not the sender, i.e. never |
| NetworkHandlerModel.BroadcastAll | server/network_handler.py:473-478 | each pending message is broadcast to everyone, in order |
| NetworkHandlerModel.ServerMessage | server/network_handler.py:385-389 | a message of the given type from "server" with the given data |
| NetworkHandlerModel.JoinAnnouncements | server/network_handler.py:256-274 | the joiner is answered with a welcome carrying its id, and everyone else is told of the participant with its id and username |
| NetworkHandlerModel.UsernameOf | server/network_handler.py:245 | the join's username, or "Unknown" when absent |
| NetworkHandlerModel.AsFlag | server/network_handler.py:503-510 | a missing media flag is left alone; a boolean is taken as given |
| NetworkHandlerModel.ScreenFrameOutgoing | server/network_handler.py:421-426 | corrected gate: a frame is relayed to everyone but the sender exactly when sharing is on and the sender is the presenter |
| NetworkHandlerModel.ScreenShareReplies | server/network_handler.py:392-419 | intended replies: a granted start or stop is passed on to the others; a refused start is answered with a screen_share_error carrying the reason; a refused stop with nothing |
| NetworkHandlerModel.ChunkCount | server/network_handler.py:922-923 | the announced count is the least number of 8192-byte chunks covering the file size, none for an empty file |
| NetworkHandlerModel.FileChunks | server/network_handler.py:926-929 | every chunk sent is non-empty and at most 8192 bytes |
| NetworkHandlerModel.FileChunksCover | server/network_handler.py:926-929 | the chunks concatenate to the file's bytes up to the announced count, stopping early at end of file |
| NetworkHandlerModel.DownloadChunkMessage | server/network_handler.py:932-944 | a file_download_chunk from "server" with the chunk number and hex data |
| NetworkHandlerModel.NetworkHandler.constructor | server/network_handler.py:36-71 | a fresh empty session and monitor, no relay, not running |
| NetworkHandlerModel.NetworkHandler.StartServers | server/network_handler.py:73-130 | running, with the client thread pool created and a fresh running media relay over the session |
| NetworkHandlerModel.NetworkHandler.StopServers | server/network_handler.py:132-203 | not running, one shutdown notice broadcast to everyone; once the thread pool exists the shutdown call raises, so a started relay is left running |
| NetworkHandlerModel.NetworkHandler.StopServersCorrected | server/network_handler.py:132-203 | with the thread pool shut down without the unsupported keyword: not running, one shutdown notice to everyone, and a started relay stopped |
| NetworkHandlerModel.StoppedServerKeepsRelayRunning | server/network_handler.py:147 | after start and stop the relay still runs; with the corrected stop it does not |
| NetworkHandlerModel.NetworkHandler.SendTcpMessage | server/network_handler.py:667-702 | succeeds exactly when the socket is open, the message serializes and frames, and the send goes through; then the framed bytes are written |
| NetworkHandlerModel.NetworkHandler.BroadcastTcpMessage | server/network_handler.py:704-752 | sent to exactly the reachable clients other than the excluded one; the rest are reported failed |
| NetworkHandlerModel.NetworkHandler.HandleChat | server/network_handler.py:363-376 | an invalid message changes nothing and is not sent; a valid one is tagged, recorded and broadcast to everyone but its sender |
| NetworkHandlerModel.NetworkHandler.HandleHeartbeat | server/network_handler.py:380-390 | a known client's heartbeat becomes now; the sender is always answered with heartbeat_ack |
| NetworkHandlerModel.NetworkHandler.HandleScreenShareStart | server/network_handler.py:392-408 | as written: the session starts sharing for the presenter, but unpacking its boolean answer fails, so nothing is sent either way |
| NetworkHandlerModel.NetworkHandler.HandleScreenShareStop | server/network_handler.py:410-419 | as written: the session stops sharing when allowed, and nothing is sent either way |
| NetworkHandlerModel.NetworkHandler.HandleScreenFrame | server/network_handler.py:421-426 | as written: the sharer the gate checks is never recorded, so no frame is relayed |
| NetworkHandlerModel.NetworkHandler.HandleFileMetadata | server/network_handler.py:428-444 | valid announced metadata, with the sender as uploader, is stored and its upload started; nothing is sent |
| NetworkHandlerModel.NetworkHandler.HandleFileUpload | server/network_handler.py:446-485 | a malformed chunk or unknown upload changes nothing; a completing chunk broadcasts every pending message to everyone and empties the queue |
| NetworkHandlerModel.NetworkHandler.HandleFileRequest | server/network_handler.py:487-499 | a missing, non-string or unknown file id sends nothing; only download chunks go back to the requester; for a shared file with content the chunks are the file's consecutive 8 KiB pieces, sent until one send is refused or all are out |
| NetworkHandlerModel.NetworkHandler.SendFile | server/network_handler.py:899-953 | the i-th message sent is the download message of the file's i-th 8 KiB chunk; sending stops at the first refused send or when every chunk is out |
| NetworkHandlerModel.NetworkHandler.HandleMediaStatus | server/network_handler.py:501-523 | the sender's given flags are recorded and a participant_status_update with its id and flags goes to everyone else |
| NetworkHandlerModel.NetworkHandler.HandleUdpAddress | server/network_handler.py:525-539 | a truthy port is recorded with the peer's real IP; otherwise nothing changes |
| NetworkHandlerModel.NetworkHandler.ProcessTcpMessage | server/network_handler.py:353-545 | unknown types change nothing; screen, metadata and address messages send nothing; a chat is passed on iff valid; chats and status updates never go back to their sender; a heartbeat is acknowledged |
| NetworkHandlerModel.NetworkHandler.AcceptJoin | server/network_handler.py:231-248 | a client is registered iff the first framed message is a client_join; otherwise nothing changes |
| NetworkHandlerModel.NetworkHandler.HandleTcpClient | server/network_handler.py:219-315 | as written: a join registers the client, but with a relay present the missing stale-stream cleanup raises, so no welcome is sent and no message loop starts |
| NetworkHandlerModel.NetworkHandler.HandleTcpClientCorrected | server/network_handler.py:219-315 | corrected: every registered client is welcomed, announced to the others and served |
| NetworkHandlerModel.NetworkHandler.ClientMessageStep | server/network_handler.py:317-351 | a stopped server reads nothing; a running one carries on exactly while a non-empty framed message arrives |
| NetworkHandlerModel.NetworkHandler.CleanupClient | server/network_handler.py:854-897 | an unknown client changes nothing; a known one is removed gracefully, its media streams dropped and the pending notices broadcast to everyone |
| NetworkHandlerModel.NetworkHandler.LeaveSession | server/network_handler.py:864-877 | the client is gone and its disconnect notice is among the broadcasts taken from the queue |
| NetworkHandlerModel.NetworkHandler.DropMediaStreams | server/network_handler.py:872-874 | the client's audio buffer and video stream are gone from the relay |
| NetworkHandlerModel.NetworkHandler.HandleUdpPacket | server/network_handler.py:547-620 | an undecodable datagram changes nothing; a decoded packet is tracked by the monitor and never sent back to its sender; audio is buffered under its sender while the relay runs and sends nothing; video sent while the relay runs reaches exactly the other UDP clients whose send succeeds |
| NetworkHandlerModel.NetworkHandler.ProcessUdpPacket | server/network_handler.py:557-620 | a decoded packet updates the sender's loss tracker, then is relayed as `RelayUdpPacket` says |
| NetworkHandlerModel.NetworkHandler.RelayUdpPacket | server/network_handler.py:586-617 | nothing goes back to the sender; audio and a missing relay send nothing; audio is buffered while the relay runs; video sent while it runs reaches exactly the other UDP clients whose send succeeds |
| NetworkHandlerModel.NetworkHandler.RelayAudio | server/network_handler.py:586-591 | the relay's buffers become `Buffered` of the old ones while it runs, and are unchanged when it is stopped |
| NetworkHandlerModel.NetworkHandler.HeartbeatMonitorStep | server/network_handler.py:964-988 | stopped: nothing happens; running: exactly the clients silent past 30 s are removed, each gets a leave message in the history, and when any were removed the queued broadcasts and one timeout notice per removed client go to everyone and the queue empties; with none removed nothing is sent |
| NetworkHandlerModel.AnnouncedFile | server/network_handler.py:431-432 | metadata built from the message, with the sender as uploader, exactly when the dictionary parses |
| NetworkHandlerModel.JoinRequest | server/network_handler.py:233-243 | an empty or missing first message is no join; a join is a valid client_join |
| NetworkHandlerModel.FirstJoin | server/network_handler.py:233-243 | without a complete framed message there is no join |
| NetworkHandlerModel.StartedServerNeverWelcomes | server/network_handler.py:251-253 | on a started server a proper join is registered but never welcomed or served |
| NetworkHandlerModel.StartedServerWelcomesWhenCorrected | server/network_handler.py:251-253 | with the corrected handshake every registered client is welcomed and served |
| NetworkHandlerModel.PresenterIsNeverRelayed | server/network_handler.py:392-426 | the presenter starts sharing and sends a frame; neither reaches anyone, where the corrected branches pass both on |
| NetworkHandlerModel.RefusedStartIsNeverAnswered | server/network_handler.py:392-408 | a non-presenter's start request gets no reply, where a screen_share_error is intended |
| NetworkHandlerModel.FileChunksShape | server/network_handler.py:926-929 | the i-th chunk sent is the file's i-th 8192-byte slice |
| PerformanceMonitorModel.VideoTier | server/performance_monitor.py:132-161 | minimal exactly when the CPU is at most 80% and loss above 5%; low when the CPU is above 80% or latency, loss or jitter is poor; high exactly when CPU, latency, loss and jitter are all good |
| PerformanceMonitorModel.AudioTier | server/performance_monitor.py:163-188 | minimal exactly when the CPU is above 90%; low when loss is above 3% or latency above 150 ms; high exactly when CPU, latency and loss are all good |
| PerformanceMonitorModel.CpuRuleShadowsLoss | server/performance_monitor.py:140-147 | with heavy loss, a busier CPU moves video from minimal up to low: the CPU rule is checked first |
| PerformanceMonitorModel.VideoTierMonotone | server/performance_monitor.py:132-161 | with the load on the same side of 80%, more loss, latency, jitter or load never gives a better video tier |
| PerformanceMonitorModel.AudioTierMonotone | server/performance_monitor.py:163-188 | more loss, latency or load never gives a better audio tier |
| PerformanceMonitorModel.VideoLevel | server/performance_monitor.py:79-84 | every video level scales the resolution by a factor in (0, 1] |
| PerformanceMonitorModel.AudioLevel | server/performance_monitor.py:86-91 | only the high audio level is stereo |
| PerformanceMonitorModel.LevelsDescend | server/performance_monitor.py:79-91 | a worse tier never has a higher bitrate, frame rate, resolution or sample rate |
| PerformanceMonitorModel.AdaptiveCompressionManager.constructor | server/performance_monitor.py:78-95 | both qualities start high |
| PerformanceMonitorModel.AdaptiveCompressionManager.AdaptQualityBasedOnMetrics | server/performance_monitor.py:97-130 | the qualities become the tiers the metrics select, and a change is reported exactly when either differs from before |
| PerformanceMonitorModel.AdaptiveCompressionManager.CurrentVideoSettings | server/performance_monitor.py:190-193 | the settings of the current video quality |
| PerformanceMonitorModel.AdaptiveCompressionManager.CurrentAudioSettings | server/performance_monitor.py:195-198 | the settings of the current audio quality |
| PerformanceMonitorModel.TrackAsWritten | server/performance_monitor.py:281-306 | as written: the sequence is always recorded; the first packet only sets it; later ones add the sequence distance, even zero or negative, to the expected count |
| PerformanceMonitorModel.Track | server/performance_monitor.py:281-306 | corrected: the first packet sets the sequence; a duplicate or reordered packet is ignored; a newer one adds its distance and one received packet |
| PerformanceMonitorModel.TrackKeepsSane | server/performance_monitor.py:281-306 | corrected tracking keeps received packets between zero and the expected count |
| PerformanceMonitorModel.CorrectedRateBounded | server/performance_monitor.py:308-336 | with corrected tracking the loss rate stays within [0, 1] for any packet sequence |
| PerformanceMonitorModel.LossRateBounded | server/performance_monitor.py:326 | a rate computed from received at most expected is within [0, 1] |
| PerformanceMonitorModel.DuplicateMakesLossNegative | server/performance_monitor.py:300-304 | as written, packets 5, 5, 6 give a loss rate of -1; corrected, 0 |
| PerformanceMonitorModel.ConsecutiveMeansNoLoss | server/performance_monitor.py:300-304 | after a loss-free start, a run of consecutive sequence numbers keeps expected equal to received: loss rate 0 |
| PerformanceMonitorModel.GapShowsLoss | server/performance_monitor.py:300-304 | skipping one sequence number shows a positive loss rate |
| PerformanceMonitorModel.SumOverRemove | server/performance_monitor.py:329-330 | the overall totals split into one client's count plus the rest |
| PerformanceMonitorModel.SumOverSane | server/performance_monitor.py:329-330 | when every tracker is sane the overall received total lies between zero and the expected total |
| PerformanceMonitorModel.PerformanceMonitor.constructor | server/performance_monitor.py:206-225 | no trackers |
| PerformanceMonitorModel.PerformanceMonitor.TrackPacketLoss | server/performance_monitor.py:281-306 | the client's tracker, created at (0, 0, -1) if missing, is advanced as written |
| PerformanceMonitorModel.PerformanceMonitor.ClientLossRate | server/performance_monitor.py:317-326 | zero for an unknown client or nothing expected; within [0, 1] for a sane tracker |
| PerformanceMonitorModel.PerformanceMonitor.GetPacketLossRate | server/performance_monitor.py:308-336 | a named client's rate, or else the overall rate, within [0, 1] when all trackers are sane |
| VideoOptimization.SettingsClimb | client/video_optimization.py:44-50 | a higher rung never has a lower JPEG quality, frame rate or scale, and a strictly higher rung has a strictly higher quality |
| VideoOptimization.TargetLevel | client/video_optimization.py:84-112 | network trouble moves down one rung (not below ultra_low); otherwise performance trouble drops ultra_high and high to medium and medium to low; otherwise good conditions climb one rung, high to ultra_high only with fast encoding; otherwise the level stays |
| VideoOptimization.StepSize | client/video_optimization.py:84-112 | one adaptation moves at most one rung, except performance trouble at ultra_high, which falls exactly two |
| VideoOptimization.NoSamplesClimb | client/video_optimization.py:76-80 | with empty histories every average is 0, so the controller climbs one rung (stays at ultra_high) |
| VideoOptimization.SustainedLossReachesFloor | client/video_optimization.py:86-94 | n adaptations under persistent network trouble fall n rungs, stopping at ultra_low |
| VideoOptimization.SustainedGoodReachesTop | client/video_optimization.py:104-112 | n adaptations under persistently good conditions with fast encoding climb n rungs, stopping at ultra_high |
| VideoOptimization.Mean | client/video_optimization.py:77-80 | the mean of an empty history is 0 |
| VideoOptimization.MeanBounds | client/video_optimization.py:77-80 | a non-empty history's mean lies between its smallest and largest sample bounds |
| VideoOptimization.AdaptiveBitrateController.constructor | client/video_optimization.py:24-51 | quality 70, level medium, no adaptation yet, all five histories empty |
| VideoOptimization.AdaptiveBitrateController.UpdateNetworkMetrics | client/video_optimization.py:53-57 | loss, latency and throughput each join their history, which keeps only the last 50 |
| VideoOptimization.AdaptiveBitrateController.UpdatePerformanceMetrics | client/video_optimization.py:59-62 | frame drops and encoding time each join their history, which keeps only the last 30 |
| VideoOptimization.AdaptiveBitrateController.AdaptQuality | client/video_optimization.py:64-118 | before the 2 s interval nothing changes; otherwise the time is recorded and the level becomes the ladder's target for the current averages; the result is always the current level's settings |
| VideoOptimization.FreshControllerClimbs | client/video_optimization.py:24-118 | a new controller adapting after 2 s with no samples returns the high settings |
| VideoOptimization.FrameBuffer.constructor | client/video_optimization.py:126-150 | capacity is max(2 * target, 2); no frames and zeroed statistics |
| VideoOptimization.FrameBuffer.AddFrame | client/video_optimization.py:152-187 | the frame is appended and the oldest dropped at capacity, counting an overrun exactly then; the result is always true |
| VideoOptimization.FrameBuffer.GetFrame | client/video_optimization.py:189-197 | the oldest frame is popped and returned when there is one; otherwise None and no change |
| VideoOptimization.FrameBuffer.AdjustTargetSize | client/video_optimization.py:220-224 | the target becomes the request clamped to [1, capacity div 2] |
| VideoOptimization.BufferIsFifo | client/video_optimization.py:152-197 | two frames added are returned by two gets in the order they were added |
| VideoOptimization.HasLeast | client/video_optimization.py:252 | a non-empty set of sequence numbers has a least element, so `min(keys)` is defined |
| VideoOptimization.SmallestKey | client/video_optimization.py:252 | returns the least key of the set |
| VideoOptimization.RecordTiming | client/video_optimization.py:240-254 | the frame's stage time is recorded; at most 50 frames remain; any frame dropped is older than every survivor; other frames are untouched |
| VideoOptimization.EarlyStragglerIsDropped | client/video_optimization.py:250-254 | a new frame older than all 50 recorded frames is dropped at once, leaving the table as it was |
| VideoOptimization.SynchronizationManager.constructor | client/video_optimization.py:232-238 | no timings |
| VideoOptimization.SynchronizationManager.RegisterFrameTiming | client/video_optimization.py:240-254 | only the client's table changes, to the recorded timing, and every table keeps at most 50 frames |
| VideoPlayback.Stale | client/video_playback.py:255-270 | exactly the active streams whose last packet is more than the timeout old |
| VideoPlayback.PopOldest | client/video_playback.py:236-253 | every buffer loses its oldest frame, empty buffers stay empty, no buffer appears or disappears |
| VideoPlayback.Oldest | client/video_playback.py:236-253 | exactly the non-empty buffers each give their oldest frame |
| VideoPlayback.StreamAfter | client/video_playback.py:137-163 | the sender's stream is active, stamped now, counts one more packet (and one more decoded frame when it decodes), and takes the packet's sequence number without an ordering check |
| VideoPlayback.BufferAfter | client/video_playback.py:144-171 | a decoded frame is appended last, the buffer keeps at most five frames; an undecodable packet leaves the buffer as it was |
| VideoPlayback.TakeOldest | client/video_playback.py:236-253 | the loop over buffers yields exactly the popped buffers and the oldest frames |
| VideoPlayback.VideoRenderer.constructor | client/video_playback.py:30-55 | not rendering, no streams, no buffers, no callbacks, zeroed statistics |
| VideoPlayback.VideoRenderer.SetFrameUpdateCallback | client/video_playback.py:57-64 | a frame callback is set |
| VideoPlayback.VideoRenderer.SetStreamStatusCallback | client/video_playback.py:66-73 | a status callback is set |
| VideoPlayback.VideoRenderer.StartRendering | client/video_playback.py:75-103 | always succeeds and renders; the start time is set only by the first start |
| VideoPlayback.VideoRenderer.StopRendering | client/video_playback.py:105-121 | a no-op when not rendering; otherwise both tables are emptied and rendering stops |
| VideoPlayback.VideoRenderer.ProcessVideoPacket | client/video_playback.py:123-185 | nothing changes unless rendering; otherwise the stream and buffer become StreamAfter and BufferAfter, a new sender is announced once, the decoded frame goes to the frame callback, and the counts are kept |
| VideoPlayback.VideoRenderer.ProcessFrameBuffers | client/video_playback.py:236-253 | every buffer loses its oldest frame, those frames are counted as rendered and handed to the frame callback |
| VideoPlayback.VideoRenderer.CleanupInactiveStreams | client/video_playback.py:255-287 | exactly the stale streams are removed from both tables, each reported inactive, and the active count is the table size |
| VideoPlayback.VideoRenderer.RemoveVideoStream | client/video_playback.py:289-309 | the stream and its buffer are gone; only a known stream is reported and recounted |
| VideoPlayback.VideoRenderer.ActiveStreams | client/video_playback.py:311-320 | every stream in the table |
| VideoPlayback.VideoRenderer.LatestFrame | client/video_playback.py:322-336 | a frame exactly when the client has a non-empty buffer, and then its newest frame, left in place |
| VideoPlayback.OldestOfOneStream | client/video_playback.py:236-253 | with one stream, a tick shows exactly that stream's oldest frame |
| VideoPlayback.FirstFrameIsTheBuffer | client/video_playback.py:144-171 | a sender's first decoded frame is its whole buffer |
| VideoPlayback.NewestFrameIsLatest | client/video_playback.py:123-336 | two packets from one sender: only the first is announced, and the latest frame is the second |
| VideoPlayback.TickTakesTheFrame | client/video_playback.py:236-336 | one tick shows the buffered frame and leaves no latest frame behind |
| JsonModel.PyIn | client/screen_playback.py:138 | the membership test answers for objects, lists and strings, by key for an object; it raises (None) exactly on null, booleans and numbers |
| JsonModel.PyLen | server/media_relay.py:499 | a length exists exactly for strings, lists and objects |
| Messages.NewTcpMessage | common/messages.py:51-63 | type, sender and data are kept; the timestamp and message id are filled from the clock and a fresh id only when not given |
| Messages.NewUdpPacket | common/messages.py:92-102 | type, sender, sequence number and payload are kept; the timestamp is filled from the clock only when not given |
| Messages.TcpFromJson | common/messages.py:75-82 | a message is built only from an object whose keys are the dataclass's fields and include type, sender and data; an object missing one of those three is an error |
| Messages.DeserializeTcp | common/messages.py:75-82 | bytes that do not parse are an error |
| Messages.TcpRoundTrip | common/messages.py:65-82 | given a round-tripping JSON codec, deserializing a serialized message gives back the same type, sender, data, timestamp and id |
| Messages.SerializeTcp | common/messages.py:65-73 | given a round-tripping JSON codec, the bytes parse back to the message's JSON object |
| Messages.DeserializeTcpMessage | common/messages.py:308-366 | a result is always a valid message equal to the plain parse; a parsed message the validator refuses is an error |
| Messages.ValidatedTcpRoundTrip | common/messages.py:308-366 | through the validating entry point a serialized message comes back exactly when it is valid, and then unchanged |
| Messages.SerializeUdp | common/messages.py:104-130 | succeeds exactly when the header fits a 4-byte length; the bytes are the big-endian header length, the JSON header, then the payload |
| Messages.UdpFromHeader | common/messages.py:150-164 | a packet read from a header carries the given payload |
| Messages.DeserializeUdp | common/messages.py:132-164 | under 4 bytes, or a header length beyond the input, is an error; a packet comes only from a parsed object header whose data length matches the payload, and carries the bytes after the header |
| Messages.UdpRoundTrip | common/messages.py:104-164 | given a round-tripping JSON codec, a serialized packet deserializes to itself |
| Messages.DeserializeUdpPacket | common/messages.py:329-373 | a result is always a valid packet equal to the plain parse; a parsed packet the validator refuses is an error |
| Messages.FactoryMessagesValid | common/messages.py:177-211 | chat, heartbeat, join and leave factory messages pass the validator exactly when the sender is not blank |
| Messages.FactoryPresenterMessagesValid | common/messages.py:259-302 | the presenter and screen-share factory messages pass the validator exactly when the sender is not blank |
| Messages.DisconnectMessageValid | common/messages.py:213-224 | the server's disconnect notice always passes the validator |
| Messages.ServerIsNotBlank | common/messages.py:213-224 | the sender id "server" survives `strip()`, so the server's notices are never blank-sender messages |
| Messages.FactoryPacketsValid | common/messages.py:239-351 | factory audio and video packets pass the UDP validator exactly when the sender is not blank and the sequence number is not negative |
| Messages.CreateChatMessage | common/messages.py:177-184 | a CHAT message from the sender whose data is exactly the text under `message`, stamped with the clock and a fresh id |
| Messages.CreateHeartbeatMessage | common/messages.py:186-193 | a HEARTBEAT from the sender whose data is exactly `status` "alive", stamped with the clock and a fresh id |
| Messages.CreateClientJoinMessage | common/messages.py:195-202 | a CLIENT_JOIN from the sender whose data is exactly the user name, stamped with the clock and a fresh id |
| Messages.CreateClientLeaveMessage | common/messages.py:204-211 | a CLIENT_LEAVE from the sender with empty data, stamped with the clock and a fresh id |
| Messages.CreateClientDisconnectMessage | common/messages.py:213-224 | a PARTICIPANT_LEFT from "server" whose data is exactly the client id, user name and reason |
| Messages.CreateFileMetadataMessage | common/messages.py:226-237 | a FILE_METADATA from the sender whose data is exactly the name, size and file id |
| Messages.CreateAudioPacket | common/messages.py:239-247 | an AUDIO packet from the sender carrying the sequence number and payload, stamped with the clock |
| Messages.CreateVideoPacket | common/messages.py:249-257 | a VIDEO packet from the sender carrying the sequence number and payload, stamped with the clock |
| Messages.CreatePresenterRequestMessage | common/messages.py:259-266 | a PRESENTER_REQUEST from the sender with empty data |
| Messages.CreatePresenterGrantedMessage | common/messages.py:268-275 | a PRESENTER_GRANTED from the sender whose data is exactly the presenter id |
| Messages.CreatePresenterDeniedMessage | common/messages.py:277-284 | a PRESENTER_DENIED from the sender whose data is exactly the reason |
| Messages.CreateScreenShareStartMessage | common/messages.py:286-293 | a SCREEN_SHARE_START from the sender with empty data |
| Messages.CreateScreenShareStopMessage | common/messages.py:295-302 | a SCREEN_SHARE_STOP from the sender with empty data |
| Networking.Frame | common/networking.py:35-49 | succeeds exactly when the length fits 4 bytes; the frame is the 4-byte length followed by the data |
| Networking.Unframe | common/networking.py:51-69 | a frame is read exactly when the stream holds the 4-byte length and that many bytes; the stream is the length, the payload and the rest |
| Networking.UnframeFrame | common/networking.py:35-69 | receiving after sending gives back exactly the payload and leaves what followed untouched |
| Networking.FrameUnframe | common/networking.py:35-69 | every complete frame read off a stream is the frame of its payload |
| Networking.ReceiveExact | common/networking.py:71-79 | exactly n bytes off the front of the stream whatever the chunking, or None when the stream ends first |
| Networking.Stream.SendAll | common/networking.py:45 | an accepted send appends all the bytes to what the peer reads; a refused one writes nothing |
| Networking.ReceiveFrame | common/networking.py:51-69 | the payload of the first frame on the stream, consuming it, or None when the stream ends early |
| Networking.TcpSocket.constructor | common/networking.py:20-24 | no socket and not connected |
| Networking.TcpSocket.Connect | common/networking.py:144-155 | the socket is kept; the result and the connected flag are whether the server accepted |
| Networking.TcpSocket.SendData | common/networking.py:35-49 | succeeds exactly when connected with a socket, the length fits and the connection takes the bytes; then exactly the frame is written |
| Networking.TcpSocket.ReceiveData | common/networking.py:51-69 | None when not connected; otherwise the next frame's payload, as ReceiveFrame |
| Networking.TcpSocket.Close | common/networking.py:81-90 | with a socket, the socket is dropped and the connected flag cleared; without one nothing changes |
| Networking.UdpSocket.constructor | common/networking.py:160-180 | a socket exists exactly when creation succeeded; neither bound nor connected |
| Networking.UdpSocket.SendData | common/networking.py:182-193 | succeeds exactly when there is a socket and the datagram went out |
| Networking.UdpSocket.Close | common/networking.py:207-217 | the socket is gone and, if there was one, no longer bound |
| Networking.UdpSocket.Disconnect | common/networking.py:295-298 | neither connected nor holding a socket |
| HexText.Hex | client/screen_capture.py:412 | the text of a payload has two digits per byte |
| HexText.HexIsHexText | client/screen_capture.py:412 | what the presenter prints is always text the receiver's parser accepts |
| HexText.FromHex | client/screen_playback.py:195 | accepted exactly when the text without its whitespace is pairs of hex digits and no whitespace falls inside a pair; one byte per pair; anything else is None |
| HexText.FromHexHex | client/screen_playback.py:195 | decoding the presenter's hex text gives back the payload bytes |
| HexText.Unspaced | client/screen_playback.py:195 | the text without whitespace is no longer and holds no whitespace |
| HexText.LeadingSpace | client/screen_playback.py:195 | whitespace in front is skipped: the text is accepted exactly when the rest is |
| HexText.NoLeadingByte | client/screen_playback.py:195 | a text whose first non-skipped character does not start a pair of digits is refused |
| HexText.LeadingByte | client/screen_playback.py:195 | a pair of digits in front is one byte, and the text is accepted exactly when the rest is |
| HexText.FromHexIgnoresSpaces | client/screen_playback.py:195 | an accepted text decodes to the same bytes as the text without its whitespace |
| HexText.HexTextAccepted | client/screen_playback.py:195 | hex text without whitespace is accepted whole, one byte per two digits |
| FileMetadataModel.NewFileMetadata | common/file_metadata.py:17-36 | the given fields are kept; an id and an upload time are generated only when not given |
| FileMetadataModel.ValidMeans | common/file_metadata.py:47-80 | valid exactly when the name has a non-whitespace character, no ".." and no separator, the uploader and id are non-empty and the size lies in [0, 100 MiB] |
| FileMetadataModel.ReplaceDotDot | common/file_metadata.py:93 | the replacement never makes a name longer, and leaves a leading dot only where there was one |
| FileMetadataModel.ReplaceDotDotLeavesNone | common/file_metadata.py:93 | after the replacement no two dots are adjacent |
| FileMetadataModel.ReplaceDotDotAddsNothing | common/file_metadata.py:93 | the replacement brings in no character other than '_' |
| FileMetadataModel.SplitExt | common/file_metadata.py:104 | the stem and extension put together give the name; an extension starts with its only dot, after a stem that is not all dots, and holds no separator |
| FileMetadataModel.ReplaceDangerous | common/file_metadata.py:97-100 | each of the seven dangerous characters becomes '_', every other character stays |
| FileMetadataModel.LimitLength | common/file_metadata.py:102-107 | a name within 255 characters is left alone |
| FileMetadataModel.LimitLengthKeeps | common/file_metadata.py:102-107 | cutting a long name brings in no character |
| FileMetadataModel.LongNamesAreCut | common/file_metadata.py:102-107 | a long name whose extension is shorter than 255 comes out at exactly 255 characters, ending in its extension |
| FileMetadataModel.GetSafeFilename | common/file_metadata.py:82-109 | a sanitised name within the limit is returned as it is |
| FileMetadataModel.SafeFilenameCharacters | common/file_metadata.py:90-100 | no dangerous character survives, and when the path check refuses neither does '/' or '\' |
| FileMetadataModel.UnsafeNamesLoseDotDot | common/file_metadata.py:90-100 | when the path check refuses, a name within the limit contains no ".." |
| FileMetadataModel.CleanIsUnchanged | common/file_metadata.py:97-100 | a name with no dangerous character is left alone |
| FileMetadataModel.SafePathKeepsParentReference | common/file_metadata.py:90-95 | a name the path check accepts, such as "../notes.txt", keeps its "../" |
| FileMetadataModel.FromDict | common/file_metadata.py:42-45 | a record is built only from a dictionary of the dataclass's keywords holding filename, size and uploader |
| FileMetadataModel.DictRoundTrip | common/file_metadata.py:38-45 | from_dict of to_dict gives the record back, whatever id and clock the constructor would have used |
| FileMetadataModel.ToDict | common/file_metadata.py:38-40 | the dictionary has exactly the dataclass's eight field names, with the name, size and uploader as given |
| FileMetadataModel.MimeIgnoresCase | common/file_metadata.py:255-304 | the lookup ignores the case of the name |
| FileMetadataModel.MimeUsesLastExtension | common/file_metadata.py:255-304 | a name's type is the table entry of its lower-cased last extension, or application/octet-stream |
| FileMetadataModel.MimeLeadingDot | common/file_metadata.py:255-304 | ".txt" has no extension and gets the default type |
| FileMetadataModel.GetMimeType | common/file_metadata.py:255-304 | the answer is an entry of the extension table or application/octet-stream |
| ConnectionManagerModel.ParticipantsFromList | client/connection_manager.py:145-150 | a table exists exactly when every entry has a string id; every entry's id is a key, and every key maps to an entry carrying that id |
| ConnectionManagerModel.ParticipantsFromListKeepsLast | client/connection_manager.py:145-150 | where ids repeat, the entry kept under an id is the last one in the list |
| ConnectionManagerModel.ParseWelcome | client/connection_manager.py:139-164 | only a welcome with object data is taken; its string client id is kept and a missing one is None; any other type is an error |
| ConnectionManagerModel.WelcomeFieldsParse | client/connection_manager.py:139-150 | a welcome with a string id and identified participants parses to exactly those |
| ConnectionManagerModel.ServerWelcomeParses | client/connection_manager.py:139-150 | the welcome the server sends on a join parses to the server-assigned id |
| ConnectionManagerModel.EstablishTraffic | client/connection_manager.py:166-178 | after the welcome a UDP address update goes out when UDP is up, and then always a heartbeat from the client |
| ConnectionManagerModel.ConnectTraffic | client/connection_manager.py:106-178 | nothing is sent unless TCP connects; the join goes first; then the address update and heartbeat only after a successful handshake |
| ConnectionManagerModel.PrepareChat | client/connection_manager.py:223-240 | text is refused exactly when blank; otherwise the stripped text cut to 1000 characters, unchanged when it fits |
| ConnectionManagerModel.SentChatIsAccepted | client/connection_manager.py:213-1336 | a chat this client prepares passes a receiver's incoming-chat check exactly when the sender id is non-empty and the time is positive |
| ConnectionManagerModel.ParticipantsAfter | client/connection_manager.py:1190-1215 | a notice aborts exactly in the cases Python raises; otherwise entries not named are kept, a leave deletes only the named id, a status update keeps the key set, a join with id and name inserts it, and other types change nothing |
| ConnectionManagerModel.BranchCallbacks | client/connection_manager.py:1197-1262 | a branch calls at most once, and only the message type's own registered callback |
| ConnectionManagerModel.Dispatches | client/connection_manager.py:1181-1269 | at most two calls, all to the message type's registered callback, the last being the generic one whenever the message does not abort |
| ConnectionManagerModel.RegisteredCallbackRunsTwice | client/connection_manager.py:1206-1266 | as written, a registered callback for a status update, shutdown or quality update (or a leave of a known id) runs twice for one message |
| ConnectionManagerModel.DispatchesOnce | client/connection_manager.py:1264-1266 | corrected: one call exactly when the type has a registered callback and the message does not abort, none otherwise |
| ConnectionManagerModel.DispatchesOnceIsSuffix | client/connection_manager.py:1181-1269 | the as-written dispatch makes every call the corrected one makes, and at most one more |
| ConnectionManagerModel.Notified | client/connection_manager.py:1386-1417 | exactly the registered ones of the two notice names |
| ConnectionManagerModel.ConnectionManager.constructor | client/connection_manager.py:46-86 | disconnected, no client id, no sockets, no participants, counter 0, no callbacks, delay 2 s |
| ConnectionManagerModel.ConnectionManager.RegisterMessageCallback | client/connection_manager.py:975-983 | the type gains a callback |
| ConnectionManagerModel.ConnectionManager.RegisterAudioCallback | client/connection_manager.py:985-992 | audio packets gain a callback |
| ConnectionManagerModel.ConnectionManager.RegisterStatusCallback | client/connection_manager.py:994-1001 | a status callback is set |
| ConnectionManagerModel.ConnectionManager.UpdateStatus | client/connection_manager.py:1704-1721 | the status is set, and the callback hears of it only when it changed |
| ConnectionManagerModel.ConnectionManager.SendTcp | client/connection_manager.py:1040-1058 | a message is written only with an open TCP link, and the result is whether it went out |
| ConnectionManagerModel.ConnectionManager.CleanupConnection | client/connection_manager.py:1419-1444 | the worker loops' flag is cleared and both sockets closed |
| ConnectionManagerModel.ConnectionManager.Notify | client/connection_manager.py:1386-1417 | the registered notice callbacks are called |
| ConnectionManagerModel.ConnectionManager.Connect | client/connection_manager.py:88-190 | refused with nothing changed while connected or connecting; otherwise connecting, then connected exactly when the handshake succeeds (taking the welcome's id, session and participants, and resetting the attempt count) or error with the old id and table; the traffic is ConnectTraffic |
| ConnectionManagerModel.ConnectionManager.Handshake | client/connection_manager.py:106-190 | succeeds exactly when TCP connects, the join goes out and a welcome parses; a failure ends in error and closes the link |
| ConnectionManagerModel.ConnectionManager.Establish | client/connection_manager.py:166-183 | the welcome's state is taken over, running and connected, attempts reset, the traffic sent |
| ConnectionManagerModel.ConnectionManager.SendAll | client/connection_manager.py:170-178 | the messages are written in order |
| ConnectionManagerModel.ConnectionManager.Disconnect | client/connection_manager.py:192-211 | a no-op when disconnected; otherwise a leave notice goes out when there is an id and a link, everything closes and the status is disconnected |
| ConnectionManagerModel.ConnectionManager.SendChatMessage | client/connection_manager.py:213-258 | succeeds exactly when connected, the text is not blank and the send works; exactly the prepared chat is written |
| ConnectionManagerModel.ConnectionManager.SendAudioData | client/connection_manager.py:260-279 | sent only when connected with UDP up; the packet takes the shared counter's value and the counter moves on by one |
| ConnectionManagerModel.ConnectionManager.SendVideoData | client/connection_manager.py:281-300 | as audio, from the same counter |
| ConnectionManagerModel.ConnectionManager.SendWithRetries | client/connection_manager.py:356-380 | attempts stop at the first success or after the given count; every earlier attempt failed; each attempt writes the message |
| ConnectionManagerModel.ConnectionManager.HandleConnectionLost | client/connection_manager.py:1354-1384 | as written: the status passes through reconnecting and always ends at error with no attempt made, everything closed, the lost and failed notices sent |
| ConnectionManagerModel.ConnectionManager.Reconnect | client/connection_manager.py:1370-1374 | one connect under the same name: connected with attempts reset exactly when the handshake succeeds, otherwise error |
| ConnectionManagerModel.ConnectionManager.HandleConnectionLostCorrected | client/connection_manager.py:1354-1384 | corrected: connected again exactly when the connection had been running and one of the remaining attempts, up to five, succeeds; otherwise error |
| ConnectionManagerModel.ConnectionManager.SendScreenFrame | client/connection_manager.py:302-398 | refused when not connected (starting the lost-connection handling unless reconnecting), without an id, for an empty frame or one over 1 MiB; otherwise up to two attempts, sent exactly when one works |
| ConnectionManagerModel.ConnectionManager.RequestPresenterRole | client/connection_manager.py:585-658 | refused when not connected (starting the lost-connection handling unless reconnecting) or without an id; otherwise the request is sent with up to three attempts |
| ConnectionManagerModel.ConnectionManager.StartScreenSharing | client/connection_manager.py:660-727 | as the presenter request, with the screen-share start message |
| ConnectionManagerModel.ConnectionManager.StopScreenSharing | client/connection_manager.py:729-781 | refused only without a client id; otherwise sent exactly when the link is open and one of three attempts works, the stop message last |
| ConnectionManagerModel.ConnectionManager.UpdateMediaStatus | client/connection_manager.py:783-808 | succeeds exactly when connected and the send works; the status message is written whenever connected |
| ConnectionManagerModel.ConnectionManager.HandleTcpMessage | client/connection_manager.py:1181-1269 | the participant table moves on by ParticipantsAfter, the callbacks run as Dispatches says, a server shutdown disconnects and stops the loops, and nothing else changes the status |
| ConnectionManagerModel.ConnectionManager.HandleUdpPacket | client/connection_manager.py:1338-1352 | a packet goes to the callback registered for its type, if any |
| ConnectionManagerModel.LostConnectionIsNeverRetried | client/connection_manager.py:1354-1384 | a connected client losing its connection ends in error after zero attempts |
| ConnectionManagerModel.LostConnectionIsRetriedWhenCorrected | client/connection_manager.py:1354-1384 | with the correction, the same loss is recovered by the first attempt |
| ConnectionManagerModel.MediaShareOneCounter | client/connection_manager.py:273-298 | audio, video, audio sent in turn carry 0, 1, 2 |
| ScreenManagerModel.ScreenManager.constructor | client/screen_manager.py:30-76 | no role, no share, no pending request, capture idle, playback receiving with both callbacks wired |
| ScreenManagerModel.ScreenManager.StartScreenSharing | client/screen_manager.py:143-185 | refused for a non-presenter; true with nothing sent when already sharing; otherwise the start request goes out and the result is whether it was sent; no flag changes |
| ScreenManagerModel.ScreenManager.StopScreenSharing | client/screen_manager.py:187-252 | a no-op unless sharing; otherwise sharing, role and pending all drop, capture stops and the server is told |
| ScreenManagerModel.ScreenManager.ReleasePresenterRole | client/screen_manager.py:128-141 | a running share is stopped first; afterwards neither presenter nor sharing |
| ScreenManagerModel.ScreenManager.RequestPresenterRole | client/screen_manager.py:78-126 | nothing without a connection or while a request is pending; a presenter releases the role; otherwise the request is marked pending and sent, and a failed send clears pending |
| ScreenManagerModel.ScreenManager.HandlePresenterGranted | client/screen_manager.py:254-268 | the role is taken, the request answered, and sharing asked for at once |
| ScreenManagerModel.ScreenManager.HandleScreenShareConfirmed | client/screen_manager.py:270-369 | as written: the capture may start, but sharing is never marked and the server is always asked to stop |
| ScreenManagerModel.ScreenManager.HandleScreenShareConfirmedCorrected | client/screen_manager.py:326-359 | corrected: sharing is marked exactly when the capture runs; only a refused capture asks the server to stop |
| ScreenManagerModel.ScreenManager.NotifyServerCaptureFailed | client/screen_manager.py:371-383 | the server is asked to stop when there is a connection |
| ScreenManagerModel.ScreenManager.HandlePresenterDenied | client/screen_manager.py:385-394 | only the pending request is cleared |
| ScreenManagerModel.ScreenManager.ResetPresenterRequestTimeout | client/screen_manager.py:396-401 | an unanswered request is given up |
| ScreenManagerModel.ScreenManager.HandleScreenShareMessage | client/screen_manager.py:403-477 | a screen frame goes to playback and is shown only when accepted; a grant to this client takes the role; a grant to another leaves it; a denial clears pending; other types change nothing |
| ScreenManagerModel.ScreenManager.OnConnectionLost | client/screen_manager.py:569-590 | every flag and the capture stay as they were |
| ScreenManagerModel.ScreenManager.OnConnectionRestored | client/screen_manager.py:592-615 | a presenter who was sharing stops the share and releases the role; otherwise nothing changes |
| ScreenManagerModel.ScreenManager.OnConnectionRestoredCorrected | client/screen_manager.py:592-608 | as its comment intends: a presenter that was sharing keeps role, share and capture and asks the server again for the role and the share; anyone else sends nothing |
| ScreenManagerModel.ScreenManager.OnConnectionFailed | client/screen_manager.py:617-647 | a running share ends locally with every flag down; otherwise nothing changes |
| ScreenManagerModel.ScreenManager.HandleScreenSharingStoppedByServer | client/screen_manager.py:720-750 | every flag drops and the capture stops, whatever the state |
| ScreenManagerModel.ScreenManager.Cleanup | client/screen_manager.py:752-800 | every flag drops, capture and playback stop, and a running share tells the server |
| ScreenManagerModel.ConfirmedShareIsNeverMarked | client/screen_manager.py:254-369 | request, grant and confirmation as written: the capture runs yet sharing is not marked, and a stop request follows |
| ScreenManagerModel.ConfirmedShareIsMarkedWhenCorrected | client/screen_manager.py:326-359 | the same flow corrected: sharing is marked, the capture runs, nothing asks to stop |
| ScreenManagerModel.ReconnectEndsShare | client/screen_manager.py:592-615 | a reconnection in the middle of a share ends it and gives up the role |
| ScreenManagerModel.ReconnectKeepsShareWhenCorrected | client/screen_manager.py:592-608 | with the corrected handler, the same reconnection leaves the client presenting, sharing and capturing, with the role and share asked for again |
| ScreenManagerModel.PendingRequestIsNotRepeated | client/screen_manager.py:78-126 | a second press while the first request is pending sends nothing more |
| ScreenCaptureModel.Clamp | client/screen_capture.py:138-144 | the result lies in [lo, hi], is the value itself inside the range and the nearer bound outside it |
| ScreenCaptureModel.FittedSize | client/screen_capture.py:273-281 | a frame within 800x600 keeps its size; a larger one is scaled by min(800/w, 600/h) and floored, fitting the bound, never growing, and touching the bound on one side; a degenerate oversized frame is refused |
| ScreenCaptureModel.ScaledBounds | client/screen_capture.py:273-281 | the real-valued scale lies in (0, 1), the scaled sides fit the bound and one of them meets it |
| ScreenCaptureModel.CaptureScreen | client/screen_capture.py:242-302 | a captured frame always fits 800x600 |
| ScreenCaptureModel.ScreenFrameMessage | client/screen_capture.py:406-416 | a SCREEN_SHARE message from the client carrying the sequence number and the JPEG as hex text the receiver decodes back to the same bytes |
| ScreenCaptureModel.ScreenCapture.constructor | client/screen_capture.py:61-100 | idle, 2 fps, quality 30, no region, sequence 0, zeroed statistics |
| ScreenCaptureModel.ScreenCapture.SetCaptureSettings | client/screen_capture.py:128-146 | fps clamped to [1, 15], quality to [10, 100], region set only when given; an absent value changes nothing |
| ScreenCaptureModel.ScreenCapture.StartCapture | client/screen_capture.py:148-186 | succeeds exactly when capture is available and either already capturing or a test shot works; a fresh start resets the sequence to 0 and records the time; otherwise nothing changes |
| ScreenCaptureModel.ScreenCapture.StopCapture | client/screen_capture.py:188-200 | not capturing |
| ScreenCaptureModel.ScreenCapture.SendScreenFrame | client/screen_capture.py:394-427 | without a connection nothing happens; otherwise the message carries the current sequence number, which moves on by one, and frames sent counts only accepted sends |
| ScreenCaptureModel.ScreenCapture.CaptureLoopStep | client/screen_capture.py:202-240 | inside the frame interval nothing happens; a failed screenshot counts an error; otherwise the frame is counted and, when it encodes, sent under the next sequence number |
| ScreenCaptureModel.ScreenCapture.SetCaptureWindow | client/screen_capture.py:501-530 | no title or "Full Screen" selects the whole screen and succeeds; on Windows a found window is selected and a missing one refused; elsewhere the whole screen |
| ScreenCaptureModel.FramesAreNumberedFromZero | client/screen_capture.py:148-427 | two frames captured after a fresh start are numbered 0 and 1 |
| ScreenPlaybackModel.FrameBytes | client/screen_playback.py:195 | bytes exactly when the value is text `bytes.fromhex` accepts, whitespace between bytes included |
| ScreenPlaybackModel.ScreenPlayback.constructor | client/screen_playback.py:29-60 | not receiving, no presenter, no frame, zeroed statistics, no callbacks |
| ScreenPlaybackModel.ScreenPlayback.SetFrameCallback | client/screen_playback.py:62-69 | a frame callback is set |
| ScreenPlaybackModel.ScreenPlayback.SetPresenterChangeCallback | client/screen_playback.py:71-78 | a presenter callback is set |
| ScreenPlaybackModel.ScreenPlayback.StartReceiving | client/screen_playback.py:80-100 | always succeeds and receives; the start time is set only by the first start |
| ScreenPlaybackModel.ScreenPlayback.StopReceiving | client/screen_playback.py:102-116 | a no-op when not receiving; otherwise presenter, last frame and time are cleared |
| ScreenPlaybackModel.ScreenPlayback.UpdatePresenter | client/screen_playback.py:163-181 | the presenter is replaced and the callback, if any, told |
| ScreenPlaybackModel.ScreenPlayback.DecompressFrame | client/screen_playback.py:183-224 | hex text is decoded and handed to the image decoder; its bytes are counted, and a frame is counted received only when it decodes |
| ScreenPlaybackModel.ScreenPlayback.DisplayFrame | client/screen_playback.py:226-249 | the frame becomes the last one at this time; it counts as displayed only when the callback succeeds |
| ScreenPlaybackModel.ScreenPlayback.ProcessScreenMessage | client/screen_playback.py:118-161 | nothing changes unless receiving a SCREEN_SHARE whose data has frame data or cannot be searched for it; data that cannot be indexed by name counts an error; otherwise a new sender becomes presenter (the callback told only on a change), and the call succeeds exactly when the frame decodes, a failure counting an error |
| ScreenPlaybackModel.ScreenPlayback.HandlePresenterStart | client/screen_playback.py:307-315 | the presenter is set and the callback told, even without a change |
| ScreenPlaybackModel.ScreenPlayback.HandlePresenterStop | client/screen_playback.py:317-337 | only the current presenter's stop clears presenter, frame and time and tells the callback; any other id changes nothing |
| ScreenPlaybackModel.SentFrameIsShown | client/screen_playback.py:118-283 | a frame sent by the presenter's capture is shown by the receiver, which then counts the share as active |
| AudioCaptureModel.AudioCapture.constructor | client/audio_capture.py:35-51 | a new microphone is idle, unmuted, numbered from 0, with no callback and nothing sent |
| AudioCaptureModel.AudioCapture.SetAudioCallback | client/audio_capture.py:95-101 | packets are from then on handed to the callback |
| AudioCaptureModel.AudioCapture.StartCapture | client/audio_capture.py:103-143 | succeeds exactly when already capturing or the audio system is there and the microphone opens; a real start restarts numbering at 0, anything else changes nothing |
| AudioCaptureModel.AudioCapture.StopCapture | client/audio_capture.py:145-166 | capture is off afterwards; the stream is closed only if capture was on |
| AudioCaptureModel.AudioCapture.SetMuted | client/audio_capture.py:168-175 | the mute flag takes the given value |
| AudioCaptureModel.AudioCapture.CaptureStep | client/audio_capture.py:185-222 | the loop goes on exactly while capturing with an open stream and the read succeeds; a muted chunk is dropped without using a number; an unmuted one goes out under the current number, which then advances by one |
| AudioCaptureModel.AudioCapture.Cleanup | client/audio_capture.py:255-268 | capture is stopped and the audio system released |
| AudioCaptureModel.MutedChunkTakesNoNumber | client/audio_capture.py:185-222 | chunks read before and after a muted one go out consecutively numbered 0 and 1, carrying their own data |
| AudioPlaybackModel.Status | client/audio_playback.py:262-285 | the fill is 20 % per chunk of five; the health label is empty exactly when the buffer is, full exactly from four chunks on, low exactly at one |
| AudioPlaybackModel.AudioPlayback.constructor | client/audio_playback.py:29-50 | a new speaker is idle, unmuted, with an empty buffer, zero counters and nothing written |
| AudioPlaybackModel.AudioPlayback.StartPlayback | client/audio_playback.py:69-109 | succeeds exactly when already playing or the audio system is there and the device opens; a real start records the start time, anything else changes nothing |
| AudioPlaybackModel.AudioPlayback.StopPlayback | client/audio_playback.py:111-136 | playback is off afterwards; stream closed and buffer emptied only if it was on |
| AudioPlaybackModel.AudioPlayback.AddAudioPacket | client/audio_playback.py:138-162 | while playing the chunk is appended and only the newest five are kept, and the received count goes up by one; otherwise nothing changes |
| AudioPlaybackModel.AudioPlayback.SetMuted | client/audio_playback.py:164-171 | the mute flag takes the given value |
| AudioPlaybackModel.AudioPlayback.PlaybackStep | client/audio_playback.py:181-216 | the oldest chunk is always taken out; a non-empty unmuted chunk is written and counted as played; otherwise silence is written, and an underrun is counted only when there was no chunk to play |
| AudioPlaybackModel.AudioPlayback.BufferStatusNow | client/audio_playback.py:262-285 | the report gives the current buffer size and underrun count |
| AudioPlaybackModel.AudioPlayback.Cleanup | client/audio_playback.py:287-300 | playback is stopped and the audio system released |
| AudioPlaybackModel.MutedPlaybackDrains | client/audio_playback.py:181-216 | a muted speaker drains its chunk as silence with no underrun, then counts one underrun on the empty buffer |
| AudioPlaybackModel.OverflowDropsOldest | client/audio_playback.py:38 | of six chunks the first is lost to the five-slot buffer and playback begins with the second, leaving four |
| AudioManagerModel.AudioManager.constructor | client/audio_manager.py:29-72 | a new manager owns a fresh microphone and speaker, both idle, with audio off, nothing muted, nothing sent or reported |
| AudioManagerModel.AudioManager.StartAudio | client/audio_manager.py:74-110 | succeeds exactly when audio was already on or both devices open; a real start reports audio on (with video off) and numbers from 0; a failure reports nothing and leaves audio off |
| AudioManagerModel.AudioManager.StopAudio | client/audio_manager.py:112-137 | audio is off afterwards; stopping a running session reports audio off and empties the speaker buffer, stopping an idle one changes nothing |
| AudioManagerModel.AudioManager.SetCaptureMuted | client/audio_manager.py:139-151 | the microphone mute takes the given value |
| AudioManagerModel.AudioManager.SetPlaybackMuted | client/audio_manager.py:153-165 | the speaker mute takes the given value |
| AudioManagerModel.AudioManager.SetMuted | client/audio_manager.py:167-176 | muting oneself sets the microphone mute |
| AudioManagerModel.AudioManager.HandleCapturedAudio | client/audio_manager.py:214-232 | the chunk's payload is sent exactly when the microphone is not muted |
| AudioManagerModel.AudioManager.HandleIncomingAudio | client/audio_manager.py:234-247 | a received chunk joins the speaker's five-slot buffer exactly while audio is on |
| AudioManagerModel.AudioManager.CaptureTick | client/audio_manager.py:214-232 | while audio is on an unmuted chunk is sent and takes the next number; a muted chunk or a stopped session sends nothing and uses no number |
| AudioManagerModel.AudioManager.Cleanup | client/audio_manager.py:301-315 | audio is stopped, reported off if it was on, and both devices release the audio system |
| AudioManagerModel.FailedSpeakerStopsMicrophone | client/audio_manager.py:74-110 | when the speaker cannot open, the start fails, the microphone is left stopped and nothing is reported |
| AudioManagerModel.MuteWithholdsAudio | client/audio_manager.py:167-232 | after muting, the next chunk is not sent; a start and a stop report audio on then off, each with video off |
| VideoCaptureModel.SizeLimit | client/video_capture.py:619-788 | every sender has a positive size limit: 256 KB for the two stable senders, 512 KB for the extreme one, 128 KB for the plain one |
| VideoCaptureModel.AdjustedTimestamp | client/video_capture.py:366-378 | the adjusted timestamp is never below the raw reading and is strictly after the previous raw reading; a reading already past it is kept unchanged |
| VideoCaptureModel.AdjustmentCanGoBackwards | client/video_capture.py:366-378 | raw readings 1.0, 1.0, 1.0005 are adjusted to 1.0, 1.001, 1.0005, so adjusted timestamps can decrease |
| VideoCaptureModel.VideoCapture.constructor | client/video_capture.py:47-99 | a new capture is idle with no camera, 320x240 at 30 fps and quality 60, numbered from 0, with nothing sent and zeroed statistics |
| VideoCaptureModel.VideoCapture.SetVideoSettings | client/video_capture.py:110-131 | each given setting is clamped into its range (width 160-1920, height 120-1080, fps 5-30, quality 10-100); an omitted one is kept |
| VideoCaptureModel.VideoCapture.StartCapture | client/video_capture.py:133-253 | succeeds exactly when video is available and capture is already on or a camera exists and opens; a real start restarts numbering at 0 and records the start time; a failed open leaves no camera held |
| VideoCaptureModel.VideoCapture.StopCapture | client/video_capture.py:255-270 | capture is off afterwards; the camera is released only if capture was on |
| VideoCaptureModel.VideoCapture.SendVideoPacket | client/video_capture.py:619-788 | without a connection or above the size limit nothing is sent and no number is used; otherwise the frame goes out under the current number, which advances by exactly one, and is counted as sent when the send succeeds (always, for the extreme sender) |
| VideoCaptureModel.VideoCapture.ProcessFrameStable | client/video_capture.py:357-404 | the raw timestamp joins the 100-entry history and the returned one is adjusted against the previous raw reading; an uncompressible frame is counted dropped and nothing is sent; a compressed one is counted in bytes and sent under the next number when within the limit |
| VideoCaptureModel.VideoCapture.CaptureLoopStep | client/video_capture.py:300-355 | inside the 1/25 s interval nothing happens; a failed read counts an error and extends the error run, which restarts at 0 on reaching 5; a good read clears the run, is processed and counted as captured |
| VideoCaptureModel.FramesAreNumberedFromZero | client/video_capture.py:675-717 | after a fresh start two frames go out numbered 0 and 1, and an oversized frame between them uses no number |
| ExtremeVideoModel.AntiFlickerSystem.constructor | client/extreme_video_optimizer.py:173-184 | a new gate has no recorded times, displays or counters |
| ExtremeVideoModel.AntiFlickerSystem.ShouldDisplayFrame | client/extreme_video_optimizer.py:186-205 | a frame passes exactly when the client has no recorded time (or 0) or 1/120 s has elapsed since the last passing frame; a passing frame records the time and counts (a first frame restarts the counter at 1); a refused frame changes nothing |
| ExtremeVideoModel.AntiFlickerSystem.MarkDisplayActive | client/extreme_video_optimizer.py:207-210 | the client's display is marked active and no other entry changes |
| ExtremeVideoModel.AntiFlickerSystem.MarkDisplayInactive | client/extreme_video_optimizer.py:212-220 | the display is marked inactive and the client's time and counter are forgotten, so its next frame passes at any time |
| ExtremeVideoModel.UltraFastNetworkHandler.constructor | client/extreme_video_optimizer.py:101-112 | a new handler is stopped with an empty queue and no callbacks |
| ExtremeVideoModel.UltraFastNetworkHandler.SetRunning | client/extreme_video_optimizer.py:114-131 | the processing flag takes the requested value |
| ExtremeVideoModel.UltraFastNetworkHandler.RegisterDisplayCallback | client/extreme_video_optimizer.py:150-152 | the client joins the set of clients with a display callback |
| ExtremeVideoModel.UltraFastNetworkHandler.QueuePacket | client/extreme_video_optimizer.py:133-148 | the one-slot queue ends up holding exactly the newest packet, the older one being dropped |
| ExtremeVideoModel.ExtremeVideoOptimizer.constructor | client/extreme_video_optimizer.py:228-248 | a new optimizer is inactive with fresh gate and handler, zeroed statistics and nothing displayed |
| ExtremeVideoModel.ExtremeVideoOptimizer.StartOptimization | client/extreme_video_optimizer.py:250-262 | the optimizer is active afterwards with the network thread running; the start time is set only by a real start |
| ExtremeVideoModel.ExtremeVideoOptimizer.StopOptimization | client/extreme_video_optimizer.py:264-275 | the optimizer is inactive afterwards with the network thread stopped |
| ExtremeVideoModel.ExtremeVideoOptimizer.RegisterClientDisplay | client/extreme_video_optimizer.py:277-289 | the optimizer is active, the client has a display callback and its display is marked active |
| ExtremeVideoModel.ExtremeVideoOptimizer.UnregisterClient | client/extreme_video_optimizer.py:322-325 | only the gate's state for the client is dropped; the display callback stays registered |
| ExtremeVideoModel.ExtremeVideoOptimizer.OptimizedDisplayCallback | client/extreme_video_optimizer.py:304-320 | a frame the gate passes is shown and counted as displayed; a refused one is counted as a prevented flicker and not shown |
| ExtremeVideoModel.ExtremeVideoOptimizer.ProcessVideoPacketExtreme | client/extreme_video_optimizer.py:291-302 | nothing happens while inactive; otherwise the packet is counted as processed, and a decodable frame of a client with a callback is shown exactly when the gate passes it |
| ExtremeVideoModel.FlickerGateDemo | client/extreme_video_optimizer.py:186-325 | of two frames 1 ms apart only the first is shown; after unregistering, a frame at the same instant is shown again |
| StableVideoModel.StableFrameBuffer.constructor | client/stable_video_system.py:26-39 | a new buffer holds no frame, was never updated and has no errors |
| StableVideoModel.StableFrameBuffer.AddFrame | client/stable_video_system.py:41-68 | a frame is accepted exactly when 1/30 s has passed since the last accepted one; it then becomes the current frame, the buffer is ready and the error run ends; a refused frame changes nothing |
| StableVideoModel.StableFrameBuffer.GetFrame | client/stable_video_system.py:70-79 | a frame is returned exactly once one has been accepted, and it is the latest accepted frame |
| StableVideoModel.StableVideoRenderer.constructor | client/stable_video_system.py:87-99 | a new renderer has no clients, no errors and no scheduled resets |
| StableVideoModel.StableVideoRenderer.RegisterClient | client/stable_video_system.py:101-122 | the client gets a fresh empty buffer, a widget never updated and an error count of 0; other clients are untouched |
| StableVideoModel.StableVideoRenderer.HandleClientError | client/stable_video_system.py:278-296 | the client's error count grows by one, and a reset is scheduled exactly when it reaches 10 |
| StableVideoModel.StableVideoRenderer.ResetClientErrors | client/stable_video_system.py:298-304 | the client's error count is 0 afterwards and nothing else changes |
| StableVideoModel.StableVideoRenderer.UpdateVideoStable | client/stable_video_system.py:124-200 | succeeds exactly for a registered client whose buffer accepts the frame, whose widget was last redrawn at least 1/25 s ago and whose redraw works; the buffer table never changes; a frame the buffer refuses leaves the buffer's frame, readiness, time and error run as they were, and with an unregistered client leaves widgets, errors and resets unchanged; an accepted frame becomes the buffer's ready current frame with its time and no errors; success records the redraw time and clears the errors; a redraw within 1/25 s changes neither; a failed redraw adds one to this client's errors only and schedules a reset when they reach the limit |
| StableVideoModel.StableVideoRenderer.UnregisterClient | client/stable_video_system.py:306-328 | the client's buffer, widget information and error count are removed and nothing else |
| StableVideoModel.StabilityManager.constructor | client/stable_video_system.py:336-349 | a new manager is off with an empty renderer and zeroed counters, started at the given time |
| StableVideoModel.StabilityManager.EnableStability | client/stable_video_system.py:351-359 | the manager is on and its start time is now |
| StableVideoModel.StabilityManager.DisableStability | client/stable_video_system.py:361-368 | the manager is off |
| StableVideoModel.StabilityManager.RegisterVideoSlot | client/stable_video_system.py:370-380 | the manager is on (its start time kept if it already was) and the client is registered with a fresh widget and no errors |
| StableVideoModel.StabilityManager.UpdateVideoFrame | client/stable_video_system.py:382-400 | when off, the update is refused with no counter touched; when on, it succeeds exactly as the renderer's update does, and exactly one of the frame and error counters grows |
| StableVideoModel.StabilityManager.RemoveVideoSlot | client/stable_video_system.py:402-408 | the client's buffer and error count are removed |
| StableVideoModel.TenthErrorSchedulesReset | client/stable_video_system.py:278-304 | the ninth error schedules nothing, the tenth schedules one reset, and running it brings the count back to 0 |
| UltraStableGuiModel.UltraStableVideoWidget.constructor | client/ultra_stable_gui.py:24-87 | a new widget has no photo, an empty queue and no errors; it is initialized with a label exactly when building the labels works, and in the error state otherwise |
| UltraStableGuiModel.UltraStableVideoWidget.Initialize | client/ultra_stable_gui.py:51-87 | an initialized widget is left alone; otherwise a successful build initializes it with a label and a failed one puts it in the error state |
| UltraStableGuiModel.UltraStableVideoWidget.HandleError | client/ultra_stable_gui.py:185-199 | the error run grows by one; reaching 3 enters the error state and starts one recovery timer, below 3 nothing else changes |
| UltraStableGuiModel.UltraStableVideoWidget.RecoverFromError | client/ultra_stable_gui.py:214-240 | the error run is 0 afterwards; with the label present the error state is cleared, with it destroyed the labels are rebuilt and the widget is initialized exactly when that works |
| UltraStableGuiModel.UltraStableVideoWidget.UpdateFrame | client/ultra_stable_gui.py:89-158 | the frame is shown exactly when 1/20 s has passed, the widget is initialized and not in error, the frame is non-empty and the image is prepared and accepted by an existing label; a too-early frame is parked (two newest kept) and nothing else changes; a bad image or refused label counts an error; a destroyed label is rebuilt without showing the frame; a shown frame records the time and clears the errors |
| UltraStableGuiModel.UltraStableVideoWidget.Destroy | client/ultra_stable_gui.py:242-257 | the widget is uninitialized and its label gone |
| UltraStableGuiModel.UltraStableVideoManager.constructor | client/ultra_stable_gui.py:264-279 | a new manager has no widgets, no slots, an empty queue, and its frame processor running |
| UltraStableGuiModel.UltraStableVideoManager.RegisterVideoSlot | client/ultra_stable_gui.py:281-295 | the slot is recorded; a widget is created only for a client without one, and an existing widget is kept |
| UltraStableGuiModel.UltraStableVideoManager.UpdateVideoFrame | client/ultra_stable_gui.py:297-322 | within 1/15 s of the last redraw of any client the frame is parked (ten newest kept), refused, and the widget untouched; otherwise an unknown client is refused and a known one succeeds exactly as its widget does, only success moving the global time; the widget then holds the frame with the new time and no errors, or keeps its photo and time, and a failed image or configure adds one error, entering the error state at three |
| UltraStableGuiModel.UltraStableVideoManager.ProcessQueueStep | client/ultra_stable_gui.py:337-352 | the oldest parked frame is taken out; one parked 0.5 s or more ago is dropped and no widget changes; a fresh one is parked again at the back (ten newest kept) while the 1/15 s global limit holds, and otherwise leaves the queue as the rest and is shown exactly when its client's widget accepts it, the global time moving only then; only that client's widget changes, gaining the frame on success, keeping photo and time on failure, and counting one error for a failed image or configure |
| UltraStableGuiModel.UltraStableVideoManager.UnregisterVideoSlot | client/ultra_stable_gui.py:354-369 | the client's widget is destroyed and removed and its slot removed; nothing else changes |
| UltraStableGuiModel.UltraStableVideoManager.Shutdown | client/ultra_stable_gui.py:371-387 | the processor stops, every widget is destroyed and removed, and the slots of those clients go |
| UltraStableGuiModel.ErrorStateDemo | client/ultra_stable_gui.py:89-229 | after three failed redraws even a good one is refused; after recovery the next good redraw is shown |
| GuiModel.FeedOrder | client/gui_manager.py:144-187 | the clients put on the remote slots number at most the slot count, are pairwise distinct, and each is a participant with video on |
| GuiModel.FeedOrderComplete | client/gui_manager.py:144-187 | every participant with video on gets a slot unless all remote slots are taken |
| GuiModel.FeedOrderGrows | client/gui_manager.py:144-187 | adding a participant at the end of the table only extends the assignment made for the others |
| GuiModel.GridDims | client/gui_manager.py:720-748 | the grid has between 1 and 4 rows and columns and at most 16 cells, and enough cells for every feed up to 16 |
| GuiModel.CellInGrid | client/gui_manager.py:746-748 | feed i is placed at row i div cols and column i mod cols, inside the grid |
| GuiModel.CellsDistinct | client/gui_manager.py:746-748 | two different feeds never share a cell |
| GuiModel.InsertByTime | client/gui_manager.py:1154-1159 | inserting an entry into a time-ordered history keeps it ordered and adds exactly that entry |
| GuiModel.SortByTime | client/gui_manager.py:1154-1159 | the history sorted by timestamp (a missing one first) is ordered and a permutation of the input |
| GuiModel.ValidateUserInput | client/gui_manager.py:2366-2388 | an input is accepted exactly when no error message is returned |
| GuiModel.RemovedAlnumIff | client/gui_manager.py:2375 | removing '_' and '-' leaves a non-empty alphanumeric string exactly for names made of letters, digits, '_' and '-' with at least one letter or digit |
| GuiModel.UsernameAcceptedIff | client/gui_manager.py:2368-2377 | a username is accepted exactly when its stripped length is within 2 to 50 and it has that shape |
| GuiModel.RemovedServerAlnumIff | client/gui_manager.py:2384 | removing '.', ':' and '-' leaves a non-empty alphanumeric string exactly for addresses made of letters, digits, '.', ':' and '-' with at least one letter or digit |
| GuiModel.ServerAcceptedIff | client/gui_manager.py:2379-2386 | a server address is accepted exactly when, stripped, it is "localhost" or has that shape |
| GuiModel.VideoFrame.constructor | client/gui_manager.py:118-142 | slot 0 belongs to the local camera and the other three are empty; none is active |
| GuiModel.VideoFrame.GetOrAssignVideoSlot | client/gui_manager.py:532-549 | a client already on a slot gets the first slot naming it; otherwise the first free remote slot, or none when there is no free remote slot; the table is not changed |
| GuiModel.VideoFrame.GetVideoSlotStable | client/gui_manager.py:627-655 | a client already on a slot gets the first slot naming it; a new remote client gets the first free slot of 1, 3, 2, else the first inactive remote slot |
| GuiModel.VideoFrame.UpdateVideoFeeds | client/gui_manager.py:144-187 | slot 0 is never touched; every remote slot is reset and then given the next client of the feed order, if any |
| GuiModel.VideoFrame.ClearVideoSlot | client/gui_manager.py:682-718 | only the first slot naming the client is reset, and only when its frame exists (to the local camera for slot 0, to nobody otherwise, inactive); the client also leaves both video managers |
| GuiModel.VideoFrame.CreateDynamicVideoGrid | client/gui_manager.py:720-770 | at most 16 feeds get a cell, feed i sits at row i div columns and column i mod columns of the grid for that many feeds, every cell lies inside the grid, and no two feeds share one |
| GuiModel.PreferredSlotDemo | client/gui_manager.py:627-655 | on a fresh panel a new remote client gets the top-right slot, and the next one the bottom-right |
| GuiModel.ChatFrame.constructor | client/gui_manager.py:877-943 | a new chat panel has an empty history, an empty entry and nothing sent |
| GuiModel.ChatFrame.AddMessage | client/gui_manager.py:1002-1033 | the entry, stamped now when it has no timestamp, is appended and only the 500 newest are kept, so the history is bounded and ends with the new message |
| GuiModel.ChatFrame.ClearChatHistory | client/gui_manager.py:1083-1090 | the history is emptied exactly when the user confirms |
| GuiModel.ChatFrame.LoadChatHistory | client/gui_manager.py:1138-1162 | the history becomes the given entries ordered by timestamp, as a permutation of them |
| GuiModel.ChatFrame.SendMessage | client/gui_manager.py:958-979 | an empty stripped message and one over 1000 characters are refused; a sent one is the stripped text, between 1 and 1000 characters, and clears the entry; any refusal or failure sends nothing and keeps the entry |

## Left out

- Sockets, accept and receive loops, thread start and join, sleeps and locks are left out because they are I/O and concurrency. Each thread loop is modelled as one sequential step (`ProcessingTick`, `MixingStep`, `CaptureLoopStep`, `PlaybackStep`, `HeartbeatMonitorStep`, ...). Interleavings between threads are not modelled.
- Tk widget creation, layout, images, canvases, dialogs and status-line text are left out because they are UI. A widget appears only as the booleans that decide the model's branches (`frameExists`, `labelExists`, `widgetOk`, `Redraw`).
- OpenCV, PIL, pyautogui, pygetwindow and pyaudio are left out because they are foreign libraries. Camera, microphone and screenshot reads, JPEG encoding and decoding, and device opening are parameters of the methods that use them.
- JSON text is left out because it is a foreign codec. `json.dfy` takes the codec as a parameter, and the lemmas assume only its round-trip law, as a `requires`.
- `uuid4`, `time.time`, `time.perf_counter` and SHA-256 hashing are left out because they are nondeterministic or foreign. Fresh ids, clock readings and hash verdicts are parameters.
- Floating-point statistics are left out because they have no discrete behaviour to prove:
  - jitter and latency estimates, average frame sizes, throughput and bandwidth;
  - the RMS audio level and its callback;
  - stability and ordering scores other than the ordering rate;
  - screen display scaling;
  - the system metrics collected by psutil;
  - the `get_*_stats` and `get_*_info` report dictionaries.
- File-system effects are left out because they are I/O: temp files in uploads, the upload and download code of the connection manager, `FileValidator.validate_file`, and `PathUtils.is_path_safe`. The path check is a boolean parameter, and write, rename and hash outcomes are booleans.
- `VideoStreamOptimizer` (client/video_optimization.py:310) is not part of this model: it forwards to the three modelled classes and runs a thread loop over float statistics.
- `VideoManager` (client/video_playback.py:369) is not part of this model: it wires a `VideoRenderer` to GUI callbacks.
- `_process_frame`, `_process_frame_extreme` and their compressors in client/video_capture.py are not on the path the capture loop takes, so only their senders are modelled.
- `_update_adaptive_settings` in client/video_capture.py is not modelled, because it copies float settings from the stream optimizer. Camera enumeration is device I/O.
- `TCPServer`, `TCPClient`, `UDPServer` and `UDPClient` in common/networking.py are not modelled beyond the framing and the socket wrappers they inherit, because their loops are socket I/O.
- The unused alternative readiness predicates of client/frame_sequencer.py are not modelled because they are never called.
- Python dictionary iteration order is not modelled. Where the source walks a dict (cleanup loops, broadcasts, shutdown), the model walks its keys in an unspecified order. Contracts state only what holds for every order.
- Messages.TcpFromJson: a field of the wrong JSON type (a number where a string is expected, say) is an error in the model. Python's dataclass does not check types and would build the message anyway; the model does not follow such ill-typed values.
- NetworkHandlerModel.NetworkHandler.HandleUdpAddress: only an integer port is recorded. Python would also record any other truthy value, a string say.
- Non-integer chunk totals and non-string usernames in server messages are left out for the same reason: the model gives JSON fields their intended types.
- FrameSequencing.FrameSequencer.EnforceCapacity: the contract keeps frames with the latest capture timestamps, but does not decide which of several frames with the same timestamp goes first. Python decides by the insertion order of its stable sort.
- Networking.Stream.Recv: a receive returns any non-empty prefix of the pending bytes, up to the requested size. How the operating system actually splits a stream is not modelled.
- StableVideoModel.StableFrameBuffer.AddFrame: the exception branch that counts consecutive errors is not modelled, because it is reachable only when copying the NumPy frame fails.
- The 10-second presenter-request timer of client/screen_manager.py is not scheduled in the model. Its firing is the method `ResetPresenterRequestTimeout`.
- Text.IsAlnum: only ASCII letters and digits count, where Python's `str.isalnum` also accepts every Unicode letter and digit. The Unicode character database is not modelled.
- GuiModel.ValidateUserInput: a user name or server address holding non-ASCII letters or digits (such as "José") is refused, where the source accepts it, because `Text.IsAlnum` is ASCII-only.
- GuiModel.UsernameAcceptedIff: states the user-name rule with ASCII letters and digits only, for the reason given for `Text.IsAlnum`.
- GuiModel.ServerAcceptedIff: states the server-address rule with ASCII letters and digits only, for the reason given for `Text.IsAlnum`.
- GuiModel.RemovedAlnumIff: characterises `isalnum` after removing '_' and '-' over ASCII letters and digits only, for the reason given for `Text.IsAlnum`.
- GuiModel.RemovedServerAlnumIff: characterises `isalnum` after removing '.', ':' and '-' over ASCII letters and digits only, for the reason given for `Text.IsAlnum`.
- Text.Lower: only ASCII letters are lower-cased. `FileMetadataModel.GetMimeType` still agrees with the source, since lower-casing creates no dot or separator, and the only non-ASCII letter that lowers to an ASCII one (the Kelvin sign, to 'k') occurs in no extension of the table.
- Messages.UdpFromHeader: a header whose `sequence_num` is not an integer (a float or a boolean), or whose `timestamp` is not a number, is refused. Python's `UDPPacket` checks no types and builds the packet from such values; the model gives JSON fields their intended types.
- Messages.DeserializeUdp: refuses the same ill-typed headers, since it builds the packet with `UdpFromHeader`.
- Messages.DeserializeUdpPacket: refuses the same ill-typed headers, since it parses with `DeserializeUdp`.
- ConnectionManagerModel.ParseWelcome: a welcome whose `client_id` is neither null nor a string, or whose `participants` is neither a list nor an object, is an error. Python stores any such value as it comes; the model gives JSON fields their intended types.
- ConnectionManagerModel.ParticipantsAfter: a join whose `client_id` is truthy but not a string leaves the table unchanged. Python inserts a number or boolean id as a key, and raises on a list or object id; the table's keys are strings in the model.
- ScreenCaptureModel.FittedSize: the scale factor is an exact rational, where Python multiplies IEEE doubles. For an oversized frame the source can fall one pixel short of the bound: 1078x600 becomes 799x445 in the source but 800x445 in the model. The ensures that a larger frame touches the bound on one side holds for the model only; the source stays within one pixel of it.
- FileMetadataModel.SplitExt: follows POSIX `os.path.splitext`, where only '/' separates directories. The Windows form, which also treats '\\' and a drive letter as separators, is not modelled.
- Networking.Stream.SendAll: a refused send writes nothing in the model. A failing `sendall` may already have written part of the data, and how much is not modelled.
- `is_screen_sharing_active` (client/screen_playback.py:271-283) and the `Valid` predicates are definitions, not members with contracts, and need no row.

## Findings

| source | as written | input that shows it | evidently intended | confidence | as-written member | corrected member |
|---|---|---|---|---|---|---|
| server/performance_monitor.py:281-336 | `track_packet_loss` adds `received - last` to the expected count even when the packet repeats or is older | packets with sequence 5, 5, 6 from one sender give a loss rate of -1 | duplicate and out-of-order packets do not lower the expected count, so the loss rate stays in [0, 1] | not executed | PerformanceMonitorModel.TrackAsWritten, PerformanceMonitorModel.DuplicateMakesLossNegative | PerformanceMonitorModel.Track, PerformanceMonitorModel.CorrectedRateBounded |
| server/network_handler.py:251-253 | after `add_client`, the handshake calls `cleanup_stale_audio_streams`, which `MediaRelay` does not define, so the join raises | any well-formed join on a server whose relay was started | the new client is welcomed, announced and served | not executed | NetworkHandlerModel.NetworkHandler.HandleTcpClient, NetworkHandlerModel.StartedServerNeverWelcomes | NetworkHandlerModel.NetworkHandler.HandleTcpClientCorrected, NetworkHandlerModel.StartedServerWelcomesWhenCorrected |
| server/network_handler.py:421-426 | screen frames are relayed only when the sender equals `get_active_screen_sharer()`, which the live session code never sets | the presenter starts sharing and sends a frame | frames from the sharing presenter go to everyone else | not executed | NetworkHandlerModel.NetworkHandler.HandleScreenFrame, NetworkHandlerModel.PresenterIsNeverRelayed | NetworkHandlerModel.ScreenFrameOutgoing |
| server/network_handler.py:392-419 | SCREEN_SHARE_START and SCREEN_SHARE_STOP unpack a pair from session methods that return a bool; the exception is swallowed | a start request from a client that is not the presenter | a granted start or stop is broadcast to the others, and a refused start gets a `screen_share_error` reply | not executed | NetworkHandlerModel.NetworkHandler.HandleScreenShareStart, NetworkHandlerModel.RefusedStartIsNeverAnswered | NetworkHandlerModel.ScreenShareReplies |
| client/screen_manager.py:326-359 | `_handle_screen_share_confirmed` never marks sharing, because `start_capture` returns a bool and `get_capability_info` is missing, and it then asks the server to stop | request, grant and confirmation with a capture that starts | sharing is marked when the capture runs, and only a refused capture asks the server to stop | not executed | ScreenManagerModel.ScreenManager.HandleScreenShareConfirmed, ScreenManagerModel.ConfirmedShareIsNeverMarked | ScreenManagerModel.ScreenManager.HandleScreenShareConfirmedCorrected, ScreenManagerModel.ConfirmedShareIsMarkedWhenCorrected |
| client/connection_manager.py:1206-1266 | callbacks for participant_left, participant_status_update, server_shutdown and quality_update run in their branch and again in the generic dispatch | one participant_status_update message with a callback registered for it | each registered callback runs once per message | not executed | ConnectionManagerModel.Dispatches, ConnectionManagerModel.RegisteredCallbackRunsTwice | ConnectionManagerModel.DispatchesOnce, ConnectionManagerModel.DispatchesOnceIsSuffix |
| client/connection_manager.py:1354-1384 | `_handle_connection_lost` calls `_cleanup_connection`, which clears `running`, before the retry loop that tests `running`, so no attempt is made | a connected client whose connection drops while the server is reachable | up to five reconnection attempts, connected again when one succeeds | not executed | ConnectionManagerModel.ConnectionManager.HandleConnectionLost, ConnectionManagerModel.LostConnectionIsNeverRetried | ConnectionManagerModel.ConnectionManager.HandleConnectionLostCorrected, ConnectionManagerModel.LostConnectionIsRetriedWhenCorrected |
| server/network_handler.py:147 | `stop_servers` calls `thread_pool.shutdown(wait=True, timeout=5)`; `ThreadPoolExecutor.shutdown` takes no `timeout` keyword, so the call raises TypeError once the pool exists, and the media relay, the servers and the pool are never stopped | start the server, then stop it | the pool is shut down and the relay stopped | not executed | NetworkHandlerModel.NetworkHandler.StopServers, NetworkHandlerModel.StoppedServerKeepsRelayRunning | NetworkHandlerModel.NetworkHandler.StopServersCorrected |
| client/screen_manager.py:592-608 | `_on_connection_restored` promises to resume screen sharing, but calls `request_presenter_role`, which for a presenter releases the role and stops the share | a presenter that is sharing loses its connection and reconnects | the presenter keeps sharing and the server is asked again for the role and the share | not executed | ScreenManagerModel.ScreenManager.OnConnectionRestored, ScreenManagerModel.ReconnectEndsShare | ScreenManagerModel.ScreenManager.OnConnectionRestoredCorrected, ScreenManagerModel.ReconnectKeepsShareWhenCorrected |
