/**
  The widget-independent logic of client/gui_manager.py: the four video slots of the video panel
  (slot 0 is the local camera) with their lookup, assignment and clearing; the grid the dynamic
  video layout places feeds on; the chat panel's bounded history, its timestamp ordering on reload
  and its send check; and the connect dialog's input validators. Tk widgets are not modelled: a
  slot records whether its frame widget still exists in `frameExists`.
 */
module GuiModel {
  import opened Wrappers
  import opened Text
  import UltraStableGuiModel
  import StableVideoModel

  /** `len(self.video_slots)`: a 2x2 grid. */
  const SlotCount: nat := 4
  /** The remote slots `_get_video_slot_stable` tries first: top-right, bottom-right, bottom-left. */
  const PreferredSlots: seq<nat> := [1, 3, 2]
  const MaxFeeds: nat := 16
  const MaxChatHistory: nat := 500
  const MaxChatLength: nat := 1000

  /** One entry of `video_slots`. */
  datatype Slot = Slot(participantId: Option<string>, active: bool, frameExists: bool)

  /** A value of the participants table as the video panel reads it. */
  datatype Participant = Participant(clientId: Option<string>, username: string, videoEnabled: bool)

  /** A slot a new client may take in `_get_or_assign_video_slot`: inactive or unassigned. */
  predicate Free(s: Slot)
  {
    !s.active || s.participantId.None?
  }

  /** No slot names the client. */
  predicate NoSlotOf(slots: seq<Slot>, clientId: string)
  {
    forall j :: 0 <= j < |slots| ==> slots[j].participantId != Some(clientId)
  }

  /** Slot `i` is the first that names the client. */
  predicate FirstSlotOf(slots: seq<Slot>, clientId: string, i: nat)
  {
    i < |slots| && slots[i].participantId == Some(clientId)
    && forall j :: 0 <= j < i ==> slots[j].participantId != Some(clientId)
  }

  /** The `m`-th preferred slot exists and is free. */
  predicate PreferredFree(slots: seq<Slot>, m: nat)
  {
    m < |PreferredSlots| && PreferredSlots[m] < |slots| && Free(slots[PreferredSlots[m]])
  }

  // ---------------------------------------------------------------- feed assignment

  /**
    The clients `update_video_feeds` puts on slots 1, 2, ... in order: participants with video on,
    in table order, each id once, no more than `cap`.
   */
  function FeedOrder(ps: seq<Participant>, cap: nat): (ids: seq<Option<string>>)
    ensures |ids| <= cap
    ensures forall a, b :: 0 <= a < b < |ids| ==> ids[a] != ids[b]
    ensures forall a :: 0 <= a < |ids| ==> exists k :: 0 <= k < |ps| && ps[k].videoEnabled && ps[k].clientId == ids[a]
  {
    if ps == [] then []
    else
      var prev := FeedOrder(ps[..|ps| - 1], cap);
      var p := ps[|ps| - 1];
      if p.videoEnabled && p.clientId !in prev && |prev| < cap then
        assert forall a :: 0 <= a < |prev| ==> prev[a] != p.clientId;
        prev + [p.clientId]
      else prev
  }

  /**
    Every participant with video on gets a slot unless all `cap` slots are taken: the assignment
    misses nobody while room is left.
   */
  lemma {:induction false} FeedOrderComplete(ps: seq<Participant>, cap: nat, k: nat)
    requires k < |ps| && ps[k].videoEnabled
    ensures ps[k].clientId in FeedOrder(ps, cap) || |FeedOrder(ps, cap)| == cap
  {
    var prev := FeedOrder(ps[..|ps| - 1], cap);
    if k < |ps| - 1 {
      assert ps[..|ps| - 1][k] == ps[k];
      FeedOrderComplete(ps[..|ps| - 1], cap, k);
      FeedOrderGrows(ps, cap);
    }
  }

  /** Adding a participant only extends the assignment. */
  lemma FeedOrderGrows(ps: seq<Participant>, cap: nat)
    requires ps != []
    ensures var prev := FeedOrder(ps[..|ps| - 1], cap);
            |prev| <= |FeedOrder(ps, cap)| && FeedOrder(ps, cap)[..|prev|] == prev
  {
  }

  /** The slot `update_video_feeds` leaves at remote position `i >= 1` for the assignment `ids`. */
  function FedSlot(s: Slot, ids: seq<Option<string>>, i: nat): Slot
    requires i >= 1
  {
    if i - 1 < |ids| then s.(participantId := ids[i - 1], active := true)
    else s.(participantId := None, active := false)
  }

  // ---------------------------------------------------------------- grid

  /** The `(rows, cols)` of `create_dynamic_video_grid` for `n` feeds. */
  function GridDims(n: nat): (r: (nat, nat))
    ensures 1 <= r.0 <= 4 && 1 <= r.1 <= 4 && r.0 * r.1 <= MaxFeeds
    ensures n >= 1 ==> MinInt(n, MaxFeeds) <= r.0 * r.1
  {
    if n == 1 then (1, 1)
    else if n <= 4 then (2, 2)
    else if n <= 6 then (2, 3)
    else if n <= 9 then (3, 3)
    else (4, 4)
  }

  /** Feed `i` of a grid with `cols` columns sits at row `i div cols`, column `i mod cols`, inside the grid. */
  lemma CellInGrid(i: nat, rows: nat, cols: nat)
    requires cols >= 1 && i < rows * cols
    ensures i / cols < rows && i % cols < cols
  {
  }

  /** Two feeds never share a cell. */
  lemma CellsDistinct(a: nat, b: nat, cols: nat)
    requires cols >= 1 && a != b
    ensures (a / cols, a % cols) != (b / cols, b % cols)
  {
    assert a == cols * (a / cols) + a % cols;
    assert b == cols * (b / cols) + b % cols;
  }

  // ---------------------------------------------------------------- chat

  /** One entry of the chat history; a reloaded entry may lack its timestamp. */
  datatype ChatEntry = ChatEntry(username: string, message: string, timestamp: Option<real>, isOwnMessage: bool, messageType: string)

  /** The order `load_chat_history` sorts by: a missing timestamp counts as the earliest time. */
  predicate TimeLe(a: ChatEntry, b: ChatEntry)
  {
    a.timestamp.None? || (b.timestamp.Some? && a.timestamp.value <= b.timestamp.value)
  }

  predicate SortedByTime(h: seq<ChatEntry>)
  {
    forall i, j :: 0 <= i < j < |h| ==> TimeLe(h[i], h[j])
  }

  /** `e` placed after every entry of `h` not later than it; `h` is sorted, so this keeps it sorted. */
  function InsertByTime(h: seq<ChatEntry>, e: ChatEntry): (r: seq<ChatEntry>)
    requires SortedByTime(h)
    ensures SortedByTime(r)
    ensures multiset(r) == multiset(h) + multiset{e}
    ensures forall x :: x in r ==> x in h || x == e
  {
    if h == [] then [e]
    else if TimeLe(h[|h| - 1], e) then h + [e]
    else
      var last := h[|h| - 1];
      var rest := InsertByTime(h[..|h| - 1], e);
      assert h == h[..|h| - 1] + [last];
      assert forall x :: x in rest ==> TimeLe(x, last) by {
        forall x | x in rest
          ensures TimeLe(x, last)
        {
          if x != e {
            var k :| 0 <= k < |h| - 1 && h[..|h| - 1][k] == x;
            assert h[k] == x;
          }
        }
      }
      rest + [last]
  }

  /** `sorted(history, key=timestamp)` */
  function SortByTime(h: seq<ChatEntry>): (r: seq<ChatEntry>)
    ensures SortedByTime(r)
    ensures multiset(r) == multiset(h)
  {
    if h == [] then []
    else
      assert h == h[..|h| - 1] + [h[|h| - 1]];
      InsertByTime(SortByTime(h[..|h| - 1]), h[|h| - 1])
  }

  /** The outcome `_send_message` reports in the status line. */
  datatype SendOutcome = EmptyMessage | TooLong | Sent(text: string) | NotConnected | SendFailed

  // ---------------------------------------------------------------- input validation

  /** Which field `validate_user_input` checks. */
  datatype InputKind = Username | Server | OtherInput

  /**
    `validate_user_input`: a username must be non-blank, its stripped length within [2, 50], and
    the raw value alphanumeric once '_' and '-' are removed; a server must be non-blank and,
    stripped, alphanumeric once '.', ':' and '-' are removed, or be "localhost". Other kinds pass.
   */
  function ValidateUserInput(kind: InputKind, value: string): (r: (bool, string))
    ensures r.0 <==> r.1 == ""
  {
    match kind
    case Username =>
      if value == "" || Strip(value) == "" then (false, "Username cannot be empty")
      else if |Strip(value)| < 2 then (false, "Username must be at least 2 characters long")
      else if |Strip(value)| > 50 then (false, "Username must be less than 50 characters")
      else if !IsAlnum(RemoveChar(RemoveChar(value, '_'), '-')) then
        (false, "Username can only contain letters, numbers, hyphens, and underscores")
      else (true, "")
    case Server =>
      if value == "" || Strip(value) == "" then (false, "Server address cannot be empty")
      else if !(IsAlnum(RemoveChar(RemoveChar(RemoveChar(Strip(value), '.'), ':'), '-')) || Strip(value) == "localhost") then
        (false, "Invalid server address format")
      else (true, "")
    case OtherInput => (true, "")
  }

  predicate UsernameChar(c: char)
  {
    IsAsciiLetter(c) || IsDigit(c) || c == '_' || c == '-'
  }

  /** Only letters, digits, '_' and '-', at least one of them a letter or digit. */
  predicate UsernameShape(value: string)
  {
    (forall i :: 0 <= i < |value| ==> UsernameChar(value[i]))
    && exists i :: 0 <= i < |value| && (IsAsciiLetter(value[i]) || IsDigit(value[i]))
  }

  /** `value.replace('_', '').replace('-', '').isalnum()` holds exactly for names of that shape. */
  lemma RemovedAlnumIff(value: string)
    ensures IsAlnum(RemoveChar(RemoveChar(value, '_'), '-')) <==> UsernameShape(value)
  {
    var stripped := RemoveChar(RemoveChar(value, '_'), '-');
    if UsernameShape(value) {
      forall x | x in stripped
        ensures IsAsciiLetter(x) || IsDigit(x)
      {
        var i :| 0 <= i < |value| && value[i] == x;
      }
      var i :| 0 <= i < |value| && (IsAsciiLetter(value[i]) || IsDigit(value[i]));
      assert value[i] in RemoveChar(value, '_');
      assert value[i] in stripped;
    }
    if IsAlnum(stripped) {
      forall i | 0 <= i < |value|
        ensures UsernameChar(value[i])
      {
        if value[i] != '_' && value[i] != '-' {
          assert value[i] in RemoveChar(value, '_');
          assert value[i] in stripped;
        }
      }
      assert stripped[0] in value;
    }
  }

  /**
    A username is accepted exactly when it is 2 to 50 characters, all letters, digits, '_' or '-',
    with at least one letter or digit.
   */
  lemma UsernameAcceptedIff(value: string)
    ensures ValidateUserInput(Username, value).0 <==> 2 <= |value| <= 50 && UsernameShape(value)
  {
    RemovedAlnumIff(value);
    if UsernameShape(value) {
      assert !IsSpace(value[0]) && !IsSpace(value[|value| - 1]);
      StripUnchanged(value);
    }
  }

  predicate ServerChar(c: char)
  {
    IsAsciiLetter(c) || IsDigit(c) || c == '.' || c == ':' || c == '-'
  }

  /** Only letters, digits, '.', ':' and '-', at least one of them a letter or digit. */
  predicate ServerShape(s: string)
  {
    (forall i :: 0 <= i < |s| ==> ServerChar(s[i]))
    && exists i :: 0 <= i < |s| && (IsAsciiLetter(s[i]) || IsDigit(s[i]))
  }

  /** `s.replace('.', '').replace(':', '').replace('-', '').isalnum()` holds exactly for addresses of that shape. */
  lemma RemovedServerAlnumIff(s: string)
    ensures IsAlnum(RemoveChar(RemoveChar(RemoveChar(s, '.'), ':'), '-')) <==> ServerShape(s)
  {
    var r := RemoveChar(RemoveChar(RemoveChar(s, '.'), ':'), '-');
    if IsAlnum(r) {
      forall i | 0 <= i < |s|
        ensures ServerChar(s[i])
      {
        if s[i] != '.' && s[i] != ':' && s[i] != '-' {
          assert s[i] in RemoveChar(s, '.');
          assert s[i] in RemoveChar(RemoveChar(s, '.'), ':');
          assert s[i] in r;
        }
      }
      assert r[0] in s;
    }
    if ServerShape(s) {
      forall x | x in r
        ensures IsAsciiLetter(x) || IsDigit(x)
      {
        var i :| 0 <= i < |s| && s[i] == x;
      }
      var i :| 0 <= i < |s| && (IsAsciiLetter(s[i]) || IsDigit(s[i]));
      assert s[i] in RemoveChar(s, '.');
      assert s[i] in RemoveChar(RemoveChar(s, '.'), ':');
      assert s[i] in r;
    }
  }

  /**
    A server address is accepted exactly when, stripped of surrounding whitespace, it is
    "localhost" or made of letters, digits, '.', ':' and '-' with at least one letter or digit.
   */
  lemma ServerAcceptedIff(value: string)
    ensures ValidateUserInput(Server, value).0 <==> Strip(value) == "localhost" || ServerShape(Strip(value))
  {
    RemovedServerAlnumIff(Strip(value));
  }

  // ---------------------------------------------------------------- the video panel

  /** `VideoFrame`: the slot table of the video panel. */
  class VideoFrame {
    var slots: seq<Slot>

    ghost predicate Valid()
      reads this
    {
      |slots| == SlotCount
    }

    /** `_create_video_slots`: slot 0 belongs to the local camera, the rest are empty; none is active. */
    constructor()
      ensures Valid()
      ensures slots[0] == Slot(Some("local"), false, true)
      ensures forall i :: 1 <= i < SlotCount ==> slots[i] == Slot(None, false, true)
    {
      slots := [Slot(Some("local"), false, true), Slot(None, false, true), Slot(None, false, true), Slot(None, false, true)];
    }

    /**
      `_get_or_assign_video_slot`, which only reads: the first slot naming the client; otherwise the
      first remote slot that is free; otherwise none.
     */
    method GetOrAssignVideoSlot(clientId: string) returns (r: Option<nat>)
      requires Valid()
      ensures r.Some? ==> r.value < |slots|
      ensures !NoSlotOf(slots, clientId) ==> r.Some? && FirstSlotOf(slots, clientId, r.value)
      ensures NoSlotOf(slots, clientId) ==>
                && (r.Some? <==> exists j :: 1 <= j < |slots| && Free(slots[j]))
                && (r.Some? ==> 1 <= r.value && Free(slots[r.value]) && forall j :: 1 <= j < r.value ==> !Free(slots[j]))
    {
      for i := 0 to |slots|
        invariant forall j :: 0 <= j < i ==> slots[j].participantId != Some(clientId)
      {
        if slots[i].participantId == Some(clientId) {
          return Some(i);
        }
      }
      for i := 1 to |slots|
        invariant forall j :: 1 <= j < i ==> !Free(slots[j])
      {
        if Free(slots[i]) {
          return Some(i);
        }
      }
      r := None;
    }

    /**
      `_get_video_slot_stable`: the first slot naming the client; for a remote client otherwise the
      first free slot among 1, 3, 2; otherwise the first inactive remote slot; otherwise none.
     */
    method GetVideoSlotStable(clientId: string) returns (r: Option<nat>)
      requires Valid()
      ensures r.Some? ==> r.value < |slots|
      ensures !NoSlotOf(slots, clientId) ==> r.Some? && FirstSlotOf(slots, clientId, r.value)
      ensures NoSlotOf(slots, clientId) && clientId != "local" && (exists m: nat :: PreferredFree(slots, m)) ==>
                exists m: nat :: PreferredFree(slots, m) && r == Some(PreferredSlots[m])
                            && forall m': nat :: m' < m ==> !PreferredFree(slots, m')
      ensures NoSlotOf(slots, clientId) && (clientId == "local" || forall m: nat :: !PreferredFree(slots, m)) ==>
                && (r.Some? <==> exists j :: 1 <= j < |slots| && !slots[j].active)
                && (r.Some? ==> 1 <= r.value && !slots[r.value].active && forall j :: 1 <= j < r.value ==> slots[j].active)
    {
      for i := 0 to |slots|
        invariant forall j :: 0 <= j < i ==> slots[j].participantId != Some(clientId)
      {
        if slots[i].participantId == Some(clientId) {
          return Some(i);
        }
      }
      if clientId != "local" {
        for m := 0 to |PreferredSlots|
          invariant forall m': nat :: m' < m ==> !PreferredFree(slots, m')
        {
          var s := PreferredSlots[m];
          if s < |slots| && Free(slots[s]) {
            assert PreferredFree(slots, m);
            return Some(s);
          }
        }
        assert forall m: nat :: !PreferredFree(slots, m);
      }
      for i := 1 to |slots|
        invariant forall j :: 1 <= j < i ==> slots[j].active
      {
        if !slots[i].active {
          return Some(i);
        }
      }
      r := None;
    }

    /**
      `update_video_feeds`: every remote slot is emptied, then the participants with video on are
      placed on slots 1, 2, 3 in table order, each id once; slot 0 and the frame widgets are untouched.
     */
    method UpdateVideoFeeds(participants: seq<Participant>)
      requires Valid()
      modifies this`slots
      ensures Valid()
      ensures slots[0] == old(slots)[0]
      ensures forall i :: 1 <= i < |slots| ==> slots[i] == FedSlot(old(slots)[i], FeedOrder(participants, SlotCount - 1), i)
    {
      for i := 1 to |slots|
        invariant |slots| == SlotCount && slots[0] == old(slots)[0]
        invariant forall j :: 1 <= j < i ==> slots[j] == FedSlot(old(slots)[j], [], j)
        invariant forall j :: i <= j < |slots| ==> slots[j] == old(slots)[j]
      {
        slots := slots[i := slots[i].(participantId := None, active := false)];
      }
      var chosen: set<Option<string>> := {};
      var slotIndex := 1;
      for k := 0 to |participants|
        invariant |slots| == SlotCount && slots[0] == old(slots)[0]
        invariant slotIndex == 1 + |FeedOrder(participants[..k], SlotCount - 1)|
        invariant forall x :: x in chosen <==> x in FeedOrder(participants[..k], SlotCount - 1)
        invariant forall j :: 1 <= j < |slots| ==> slots[j] == FedSlot(old(slots)[j], FeedOrder(participants[..k], SlotCount - 1), j)
      {
        assert participants[..k + 1][..k] == participants[..k];
        var p := participants[k];
        if !p.videoEnabled {
          continue;
        }
        if p.clientId in chosen || slotIndex >= |slots| {
          continue;
        }
        slots := slots[slotIndex := slots[slotIndex].(participantId := p.clientId, active := true)];
        chosen := chosen + {p.clientId};
        slotIndex := slotIndex + 1;
      }
      assert participants[..|participants|] == participants;
    }

    /**
      `clear_video_slot`: the client leaves both video managers; then the first slot naming it is
      reset (to the local camera for slot 0, to nobody otherwise, and inactive) provided its frame
      widget still exists. Every other slot is untouched.
     */
    method ClearVideoSlot(clientId: string, ultra: UltraStableGuiModel.UltraStableVideoManager,
                          stability: StableVideoModel.StabilityManager)
      requires stability.renderer.Valid()
      modifies this`slots, ultra`widgets, ultra`slots
      modifies if clientId in ultra.widgets then {ultra.widgets[clientId]} else {}
      modifies stability.renderer`frameBuffers, stability.renderer`widgetLastUpdate, stability.renderer`clientErrors
      ensures ultra.widgets == old(ultra.widgets) - {clientId} && ultra.slots == old(ultra.slots) - {clientId}
      ensures stability.renderer.frameBuffers == old(stability.renderer.frameBuffers) - {clientId}
      ensures |slots| == |old(slots)|
      ensures forall i: nat :: i < |slots| && !(FirstSlotOf(old(slots), clientId, i) && old(slots)[i].frameExists) ==>
                slots[i] == old(slots)[i]
      ensures forall i: nat :: FirstSlotOf(old(slots), clientId, i) && old(slots)[i].frameExists ==>
                slots[i] == old(slots)[i].(participantId := if i == 0 then Some("local") else None, active := false)
    {
      ultra.UnregisterVideoSlot(clientId);
      stability.RemoveVideoSlot(clientId);
      for i := 0 to |slots|
        invariant slots == old(slots)
        invariant forall j :: 0 <= j < i ==> slots[j].participantId != Some(clientId)
      {
        if slots[i].participantId == Some(clientId) {
          if slots[i].frameExists {
            slots := slots[i := slots[i].(participantId := if i == 0 then Some("local") else None, active := false)];
          }
          return;
        }
      }
    }

    /**
      `create_dynamic_video_grid`: no feeds give the "no active video feeds" label (no cells);
      otherwise the first 16 feeds are placed row by row on the grid `GridDims` picks. The cells are
      inside the grid and pairwise distinct.
     */
    method CreateDynamicVideoGrid(clients: seq<string>) returns (cells: seq<(nat, nat)>)
      ensures |cells| == MinInt(|clients|, MaxFeeds)
      // feed i fills the grid row by row
      ensures forall i :: 0 <= i < |cells| ==> cells[i] == (i / GridDims(|clients|).1, i % GridDims(|clients|).1)
      ensures forall i :: 0 <= i < |cells| ==> cells[i].0 < GridDims(|clients|).0 && cells[i].1 < GridDims(|clients|).1
      ensures forall a, b :: 0 <= a < b < |cells| ==> cells[a] != cells[b]
    {
      cells := [];
      if clients == [] {
        return;
      }
      var (rows, cols) := GridDims(|clients|);
      var count := MinInt(|clients|, MaxFeeds);
      for i := 0 to count
        invariant |cells| == i
        invariant forall k :: 0 <= k < i ==> cells[k] == (k / cols, k % cols)
        invariant forall k :: 0 <= k < i ==> cells[k].0 < rows && cells[k].1 < cols
      {
        CellInGrid(i, rows, cols);
        cells := cells + [(i / cols, i % cols)];
      }
      forall a, b | 0 <= a < b < |cells|
        ensures cells[a] != cells[b]
      {
        CellsDistinct(a, b, cols);
      }
    }
  }

  /** A fresh panel gives a new remote client the top-right slot, and the bottom-right one once that is taken. */
  method PreferredSlotDemo() returns (first: Option<nat>, second: Option<nat>)
    ensures first == Some(1) && second == Some(3)
  {
    var panel := new VideoFrame();
    first := panel.GetVideoSlotStable("peer-a");
    assert PreferredFree(panel.slots, 0);
    panel.slots := panel.slots[1 := Slot(Some("peer-a"), true, true)];
    second := panel.GetVideoSlotStable("peer-b");
    assert !PreferredFree(panel.slots, 0) && PreferredFree(panel.slots, 1);
  }

  // ---------------------------------------------------------------- the chat panel

  /** `ChatFrame`: the history kept for the session, the entry field and what was handed to the connection. */
  class ChatFrame {
    var chatHistory: seq<ChatEntry>
    /** The text in the message entry field. */
    var entry: string
    /** Whether a send callback is set, i.e. the client is connected. */
    var hasCallback: bool
    /** Texts passed to the send callback, in order. */
    var sentTexts: seq<string>

    constructor(hasCallback: bool)
      ensures chatHistory == [] && entry == "" && this.hasCallback == hasCallback && sentTexts == []
    {
      chatHistory, entry, sentTexts := [], "", [];
      this.hasCallback := hasCallback;
    }

    /**
      `add_message`: the entry (stamped `now` when no timestamp is given) is appended, and only the
      500 newest entries are kept, in arrival order.
     */
    method AddMessage(username: string, message: string, timestamp: Option<real>, isOwn: bool, messageType: string, now: real)
      modifies this`chatHistory
      ensures chatHistory == KeepLast(old(chatHistory) + [ChatEntry(username, message, Some(if timestamp.Some? then timestamp.value else now), isOwn, messageType)], MaxChatHistory)
      ensures |chatHistory| <= MaxChatHistory
      ensures chatHistory[|chatHistory| - 1].message == message
    {
      var e := ChatEntry(username, message, Some(if timestamp.Some? then timestamp.value else now), isOwn, messageType);
      KeepLastEndsWith(chatHistory, e, MaxChatHistory);
      chatHistory := KeepLast(chatHistory + [e], MaxChatHistory);
    }

    /** `_clear_chat_history`: only after the user confirms. */
    method ClearChatHistory(confirmed: bool)
      modifies this`chatHistory
      ensures chatHistory == if confirmed then [] else old(chatHistory)
    {
      if confirmed {
        chatHistory := [];
      }
    }

    /**
      `load_chat_history`: the history is replaced by the given entries in timestamp order (entries
      without one first); the 500-entry bound is not applied here.
     */
    method LoadChatHistory(history: seq<ChatEntry>)
      modifies this`chatHistory
      ensures SortedByTime(chatHistory)
      ensures multiset(chatHistory) == multiset(history)
    {
      var sorted := SortByTime(history);
      chatHistory := [];
      for k := 0 to |sorted|
        invariant chatHistory == sorted[..k]
      {
        chatHistory := chatHistory + [sorted[k]];
      }
      assert sorted[..|sorted|] == sorted;
    }

    /**
      `_send_message`: the stripped entry is refused when empty or over 1000 characters (it is never
      cut). Without a callback the client is not connected. A send that goes through hands over the
      stripped text and clears the entry; a failing callback leaves the entry as it was.
     */
    method SendMessage(callbackOk: bool) returns (outcome: SendOutcome)
      modifies this`entry, this`sentTexts
      ensures var text := Strip(old(entry));
              && (text == "" ==> outcome == EmptyMessage)
              && (text != "" && |text| > MaxChatLength ==> outcome == TooLong)
              && (text != "" && |text| <= MaxChatLength && !hasCallback ==> outcome == NotConnected)
              && (text != "" && |text| <= MaxChatLength && hasCallback ==> outcome == if callbackOk then Sent(text) else SendFailed)
      ensures outcome.Sent? ==> sentTexts == old(sentTexts) + [outcome.text] && entry == ""
                                && 1 <= |outcome.text| <= MaxChatLength
      ensures !outcome.Sent? ==> sentTexts == old(sentTexts) && entry == old(entry)
    {
      var text := Strip(entry);
      if text == "" {
        return EmptyMessage;
      }
      if |text| > MaxChatLength {
        return TooLong;
      }
      if !hasCallback {
        return NotConnected;
      }
      if !callbackOk {
        return SendFailed;
      }
      sentTexts := sentTexts + [text];
      entry := "";
      outcome := Sent(text);
    }
  }
}
