/** The messaging page: the relative time shown next to a conversation, the
    send button's guard, the conversation list assembled from per-conversation
    lookups, and the message list that realtime inserts extend. */
module Messages {
  import opened Text
  import opened Seqs
  import opened Backend

  // ---------------------------------------------------------------------------
  // getTimeAgo
  // ---------------------------------------------------------------------------

  const MinuteMs := 60000
  const HourMs := 3600000
  const DayMs := 86400000

  /** The four buckets of the relative time; the number is the one shown. */
  datatype Elapsed = JustNow | MinutesAgo(minutes: int) | HoursAgo(hours: int) | DaysAgo(days: int)

  /** The bucket for a difference `now - timestamp` in milliseconds, with
      `diffInMins = Math.floor(diffInMs / 60000)` (Dafny's division by a
      positive constant rounds down like `Math.floor`). */
  function Classify(diffMs: int): (e: Elapsed)
    ensures e.JustNow? <==> diffMs < MinuteMs
    ensures e.MinutesAgo? <==> MinuteMs <= diffMs < HourMs
    ensures e.HoursAgo? <==> HourMs <= diffMs < DayMs
    ensures e.DaysAgo? <==> DayMs <= diffMs
    ensures e.MinutesAgo? ==> 1 <= e.minutes < 60 && e.minutes * MinuteMs <= diffMs < (e.minutes + 1) * MinuteMs
    ensures e.HoursAgo? ==> 1 <= e.hours <= 23 && e.hours * HourMs <= diffMs < (e.hours + 1) * HourMs
    ensures e.DaysAgo? ==> 1 <= e.days && e.days * DayMs <= diffMs < (e.days + 1) * DayMs
  {
    var mins := diffMs / 60000;
    if mins < 1 then JustNow
    else if mins < 60 then MinutesAgo(mins)
    else if mins < 1440 then HoursAgo(mins / 60)
    else DaysAgo(mins / 1440)
  }

  /** The label of a bucket, numbers written in decimal. */
  function Render(e: Elapsed): (s: string)
    requires !e.JustNow? ==> ShownValue(e) >= 1
  {
    match e
    case JustNow => "Just now"
    case MinutesAgo(m) => NatToString(m) + "m ago"
    case HoursAgo(h) => NatToString(h) + "h ago"
    case DaysAgo(d) => NatToString(d) + "d ago"
  }

  function ShownValue(e: Elapsed): int {
    match e
    case JustNow => 0
    case MinutesAgo(m) => m
    case HoursAgo(h) => h
    case DaysAgo(d) => d
  }

  /** `getTimeAgo(timestamp)`, with the parsed difference to now passed in:
      an empty timestamp shows nothing. */
  function TimeAgo(timestamp: string, diffMs: int): (s: string)
    ensures timestamp == "" <==> s == ""
    ensures timestamp != "" && diffMs < MinuteMs ==> s == "Just now"
  {
    if timestamp == "" then ""
    else Render(Classify(diffMs))
  }

  /** Reads a label back: the inverse of Render. */
  function Parse(s: string): Option<Elapsed> {
    if s == "Just now" then Some(JustNow)
    else if |s| > 5 && AllDigits(s[..|s| - 5]) then
      var n := DecimalValue(s[..|s| - 5]);
      var suffix := s[|s| - 5..];
      if suffix == "m ago" then Some(MinutesAgo(n))
      else if suffix == "h ago" then Some(HoursAgo(n))
      else if suffix == "d ago" then Some(DaysAgo(n))
      else None
    else None
  }

  /** Every label reads back as the bucket and number it was made from, so
      two different elapsed times never share a label. */
  lemma RenderRoundTrip(e: Elapsed)
    requires !e.JustNow? ==> ShownValue(e) >= 1
    ensures Parse(Render(e)) == Some(e)
  {
    if !e.JustNow? {
      var n: nat := ShownValue(e);
      var digits := NatToString(n);
      var s := Render(e);
      assert s[..|s| - 5] == digits;
      assert s[0] == digits[0] && IsDigit(s[0]);
      assert s != "Just now" by {
        assert "Just now"[0] == 'J';
      }
      DecimalRoundTrip(n);
    }
  }

  /** The label of a difference determines its bucket and number. */
  lemma TimeAgoDeterminesBucket(timestamp: string, diffMs: int, diffMs': int)
    requires timestamp != ""
    requires TimeAgo(timestamp, diffMs) == TimeAgo(timestamp, diffMs')
    ensures Classify(diffMs) == Classify(diffMs')
  {
    RenderRoundTrip(Classify(diffMs));
    RenderRoundTrip(Classify(diffMs'));
  }

  // ---------------------------------------------------------------------------
  // Sending
  // ---------------------------------------------------------------------------

  /** A JavaScript truthiness test on a nullable id: null and "" are false. */
  predicate Present(id: Option<string>) {
    id.Some? && id.value != ""
  }

  /** The insert `handleSend` issues, if its guard lets it through: the input,
      trimmed, into the selected conversation, from the signed-in user. */
  function SendRequest(input: string, selected: Option<string>, user: Option<UserId>): (r: Option<Request>)
    ensures r.Some? <==> Trim(input) != "" && Present(selected) && Present(user)
    ensures r.Some? ==> && r.value.InsertMessage?
                        && r.value.conversationId == selected.value
                        && r.value.senderId == user.value
                        && r.value.content == Trim(input)
                        && r.value.content != ""
                        && !IsJsSpace(r.value.content[0]) && !IsJsSpace(r.value.content[|r.value.content| - 1])
  {
    var content := Trim(input);
    if content == "" || !Present(selected) || !Present(user) then None
    else Some(InsertMessage(selected.value, user.value, content))
  }

  /** Sending the trimmed text again sends the same message. */
  lemma SendRequestTrimStable(input: string, selected: Option<string>, user: Option<UserId>)
    ensures SendRequest(Trim(input), selected, user) == SendRequest(input, selected, user)
  {
    TrimIdempotent(input);
  }

  /** Typed text with white space around it is sent as the text alone. */
  lemma SendsTypedText(before: string, text: string, after: string, selected: Option<string>, user: Option<UserId>)
    requires forall i :: 0 <= i < |before| ==> IsJsSpace(before[i])
    requires forall i :: 0 <= i < |after| ==> IsJsSpace(after[i])
    requires text != [] && !IsJsSpace(text[0]) && !IsJsSpace(text[|text| - 1])
    requires Present(selected) && Present(user)
    ensures SendRequest(before + text + after, selected, user) == Some(InsertMessage(selected.value, user.value, text))
  {
    var input := before + text + after;
    assert input[|before|..|before| + |text|] == text;
    assert forall i :: |before| + |text| <= i < |input| ==> input[i] == after[i - |before| - |text|];
    assert TrimmedAt(input, |before|, |text|);
    TrimUnique(input, |before|, |text|);
  }

  // ---------------------------------------------------------------------------
  // Conversation list
  // ---------------------------------------------------------------------------

  datatype OtherUser = OtherUser(id: UserId, fullName: string, avatarUrl: Option<string>)

  datatype Conversation = Conversation(id: string, otherUser: OtherUser, lastMessage: string, lastMessageTime: string, unread: int)

  datatype LastMessage = LastMessage(content: string, createdAt: string)

  /** The answers of the three lookups made per conversation id: the first
      other participant, the newest message and the unread count (each may
      come back empty). */
  datatype Lookups = Lookups(
    other: string -> Option<OtherUser>,
    last: string -> Option<LastMessage>,
    unread: string -> Option<int>)

  const NoMessagesYet := "No messages yet"

  /** The entry pushed for one conversation; `||` turns a missing or empty
      last message into the default text and a missing or zero count into 0. */
  function Summarize(id: string, lookups: Lookups): (c: Conversation)
    requires lookups.other(id).Some?
    ensures c.id == id && c.otherUser == lookups.other(id).value
    ensures c.lastMessage != ""
    ensures lookups.last(id).None? ==> c.lastMessage == NoMessagesYet && c.lastMessageTime == ""
    ensures lookups.last(id).Some? && lookups.last(id).value.content != "" ==> c.lastMessage == lookups.last(id).value.content
    ensures lookups.last(id).Some? && lookups.last(id).value.content == "" ==> c.lastMessage == NoMessagesYet
    ensures lookups.last(id).Some? ==> c.lastMessageTime == lookups.last(id).value.createdAt
    ensures lookups.unread(id).None? ==> c.unread == 0
    ensures lookups.unread(id).Some? ==> c.unread == lookups.unread(id).value
  {
    var last := lookups.last(id);
    var content := if last.Some? && last.value.content != "" then last.value.content else NoMessagesYet;
    var time := if last.Some? then last.value.createdAt else "";
    var unread := if lookups.unread(id).Some? then lookups.unread(id).value else 0;
    Conversation(id, lookups.other(id).value, content, time, unread)
  }

  predicate HasOther(lookups: Lookups, id: string) {
    lookups.other(id).Some?
  }

  /** The list the loop builds for the first ids, one id at a time. */
  function Summaries(ids: seq<string>, lookups: Lookups): seq<Conversation> {
    if ids == [] then []
    else
      var last := ids[|ids| - 1];
      Summaries(ids[..|ids| - 1], lookups) + (if HasOther(lookups, last) then [Summarize(last, lookups)] else [])
  }

  /** The loop of `loadConversations`: ids without another participant are
      skipped. */
  method BuildSummaries(ids: seq<string>, lookups: Lookups) returns (data: seq<Conversation>)
    ensures data == Summaries(ids, lookups)
  {
    data := [];
    var i := 0;
    while i < |ids|
      invariant 0 <= i <= |ids|
      invariant data == Summaries(ids[..i], lookups)
    {
      var convId := ids[i];
      assert ids[..i + 1][..i] == ids[..i];
      if !HasOther(lookups, convId) {
        i := i + 1;
        continue;
      }
      data := data + [Summarize(convId, lookups)];
      i := i + 1;
    }
    assert ids[..|ids|] == ids;
  }

  /** The list holds one summary per conversation that has another
      participant, in the order of the ids, and nothing else. */
  lemma {:induction false} SummariesAreKeptIds(ids: seq<string>, lookups: Lookups)
    ensures var kept := Filter(ids, id => HasOther(lookups, id));
      && |Summaries(ids, lookups)| == |kept|
      && forall k :: 0 <= k < |kept| ==>
           HasOther(lookups, kept[k]) && Summaries(ids, lookups)[k] == Summarize(kept[k], lookups)
  {
    if ids != [] {
      var init, last := ids[..|ids| - 1], ids[|ids| - 1];
      assert ids == init + [last];
      SummariesAreKeptIds(init, lookups);
      FilterAppend(init, [last], id => HasOther(lookups, id));
    }
  }

  // ---------------------------------------------------------------------------
  // The page
  // ---------------------------------------------------------------------------

  datatype Message = Message(id: string, senderId: UserId, content: string, createdAt: string, read: bool)

  class MessagesPage {
    var currentUserId: Option<UserId>
    var conversations: seq<Conversation>
    var selectedConversationId: Option<string>
    var messages: seq<Message>
    var messageInput: string
    var loading: bool

    constructor ()
      ensures currentUserId == None && conversations == [] && selectedConversationId == None
      ensures messages == [] && messageInput == "" && loading
    {
      currentUserId := None;
      conversations := [];
      selectedConversationId := None;
      messages := [];
      messageInput := "";
      loading := true;
    }

    /** `loadConversations`, given the ids the participant query returned
        (None when it returned nothing) and the per-conversation lookups. */
    method LoadConversations(participantIds: Option<seq<string>>, lookups: Lookups)
      modifies this`conversations, this`selectedConversationId, this`loading
      ensures !Present(old(currentUserId)) ==>
        && conversations == old(conversations) && selectedConversationId == old(selectedConversationId)
        && loading == old(loading)
      ensures Present(old(currentUserId)) && participantIds.None? ==>
        && conversations == old(conversations) && selectedConversationId == old(selectedConversationId)
        && !loading
      ensures Present(old(currentUserId)) && participantIds.Some? ==>
        && conversations == Summaries(participantIds.value, lookups)
        && selectedConversationId ==
             (if conversations != [] && !Present(old(selectedConversationId))
              then Some(conversations[0].id) else old(selectedConversationId))
        && !loading
    {
      if !Present(currentUserId) {
        return;
      }
      if participantIds.None? {
        loading := false;
        return;
      }
      var data := BuildSummaries(participantIds.value, lookups);
      conversations := data;
      if |data| > 0 && !Present(selectedConversationId) {
        selectedConversationId := Some(data[0].id);
      }
      loading := false;
    }

    /** The realtime INSERT handler: the new message goes at the end. */
    method OnMessageInserted(m: Message)
      modifies this`messages
      ensures messages == old(messages) + [m]
    {
      messages := messages + [m];
    }

    /** `handleSend`: the insert it issues (if any) and the input afterwards,
        cleared only once the insert succeeded. */
    method HandleSend(insertFailed: bool) returns (sent: Option<Request>)
      modifies this`messageInput
      ensures sent == SendRequest(old(messageInput), selectedConversationId, currentUserId)
      ensures messageInput == if sent.Some? && !insertFailed then "" else old(messageInput)
    {
      var content := Trim(messageInput);
      if content == "" || !Present(selectedConversationId) || !Present(currentUserId) {
        return None;
      }
      sent := Some(InsertMessage(selectedConversationId.value, currentUserId.value, content));
      if insertFailed {
        return;
      }
      messageInput := "";
    }
  }
}
