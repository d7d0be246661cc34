/**
 * The messaging page (pages/Messages.tsx): the inbox, the selected thread, the
 * composer and the local list of messages the user has sent.
 *
 * `Date.now()` and `new Date().toISOString()` are the parameters `stampId` and
 * `createdAt` of `Send`.
 */
module Messages {
  import opened Types
  import opened Constants

  /**
   * The code units `String.prototype.trim` removes: the ECMAScript white space
   * (tab, vertical tab, form feed, space, no-break space, the byte order mark and
   * the space separators) and the line terminators.
   */
  predicate IsJsWhitespace(c: char)
  {
    || ('\U{0009}' <= c <= '\U{000D}')
    || c == '\U{0020}' || c == '\U{00A0}' || c == '\U{1680}'
    || ('\U{2000}' <= c <= '\U{200A}')
    || c == '\U{2028}' || c == '\U{2029}' || c == '\U{202F}' || c == '\U{205F}' || c == '\U{3000}'
    || c == '\U{FEFF}'
  }

  /** Leading white space removed: a suffix of `s` that starts with a non-space, if anything is left. */
  function TrimStart(s: string): (r: string)
    ensures |r| <= |s| && r == s[|s| - |r|..]
    ensures forall i :: 0 <= i < |s| - |r| ==> IsJsWhitespace(s[i])
    ensures r != [] ==> !IsJsWhitespace(r[0])
  {
    if s != [] && IsJsWhitespace(s[0]) then TrimStart(s[1..]) else s
  }

  /** Trailing white space removed: a prefix of `s` that ends with a non-space, if anything is left. */
  function TrimEnd(s: string): (r: string)
    ensures |r| <= |s| && r == s[..|r|]
    ensures forall i :: |r| <= i < |s| ==> IsJsWhitespace(s[i])
    ensures r != [] ==> !IsJsWhitespace(r[|r| - 1])
  {
    if s != [] && IsJsWhitespace(s[|s| - 1]) then TrimEnd(s[..|s| - 1]) else s
  }

  /** `r` is `s[a..b]`, and everything of `s` outside that slice is white space. */
  predicate WhitespaceAround(s: string, r: string, a: int, b: int)
  {
    && 0 <= a <= b <= |s| && r == s[a..b]
    && (forall i :: 0 <= i < a ==> IsJsWhitespace(s[i]))
    && (forall i :: b <= i < |s| ==> IsJsWhitespace(s[i]))
  }

  /** `s.trim()`: the text with its leading and trailing white space removed. */
  function Trim(s: string): (r: string)
    ensures |r| <= |s|
    ensures exists a, b :: WhitespaceAround(s, r, a, b)
    ensures r != [] ==> !IsJsWhitespace(r[0]) && !IsJsWhitespace(r[|r| - 1])
  {
    var t := TrimStart(s);
    var r := TrimEnd(t);
    var a := |s| - |t|;
    assert WhitespaceAround(s, r, a, a + |r|) by {
      assert r == s[a..a + |r|];
      forall i | a + |r| <= i < |s| ensures IsJsWhitespace(s[i]) {
        assert s[i] == t[i - a];
      }
    }
    r
  }

  /** `!s.trim()`: the text trims to nothing exactly when every code unit of it is white space. */
  lemma BlankIffAllWhitespace(s: string)
    ensures Trim(s) == [] <==> forall i :: 0 <= i < |s| ==> IsJsWhitespace(s[i])
  {
    var t := TrimStart(s);
    if t != [] {
      assert !IsJsWhitespace(s[|s| - |t|]);
      assert TrimEnd(t) != [];
    }
  }

  /** `participants.find(p => p.id !== userId)`, as a position: the first participant who is not the user. */
  function FirstOther(participants: seq<Profile>, userId: string): (r: Option<nat>)
    ensures r.None? <==> forall p :: p in participants ==> p.id == userId
    ensures r.Some? ==> r.value < |participants| && participants[r.value].id != userId
    ensures r.Some? ==> forall j :: 0 <= j < r.value ==> participants[j].id == userId
  {
    if participants == [] then None
    else if participants[0].id != userId then Some(0)
    else
      match FirstOther(participants[1..], userId)
      case None =>
        assert participants == [participants[0]] + participants[1..];
        None
      case Some(k) => Some(k + 1)
  }

  /** `participants.find(p => p.id !== userId) || participants[0]`; none when there are no participants. */
  function OtherParticipant(participants: seq<Profile>, userId: string): (r: Option<Profile>)
    ensures r.None? <==> participants == []
    ensures r.Some? ==> r.value in participants
    ensures r.Some? && r.value.id != userId ==>
      exists k :: 0 <= k < |participants| && participants[k] == r.value &&
        forall j :: 0 <= j < k ==> participants[j].id == userId
    ensures r.Some? && r.value.id == userId ==>
      r.value == participants[0] && forall p :: p in participants ==> p.id == userId
  {
    match FirstOther(participants, userId)
    case Some(k) => Some(participants[k])
    case None => if participants == [] then None else Some(participants[0])
  }

  /** The chat header: `find(p => p.id !== userId)?.name`, with no fallback to the first participant. */
  function HeaderName(participants: seq<Profile>, userId: string): (r: Option<string>)
    ensures r.None? <==> forall p :: p in participants ==> p.id == userId
    ensures r.Some? ==> exists p :: p in participants && p.id != userId && p.name == r.value
  {
    match FirstOther(participants, userId)
    case Some(k) => Some(participants[k].name)
    case None => None
  }

  /** When someone other than the user takes part, the inbox entry and the chat header name the same person. */
  lemma HeaderAgreesWithInbox(participants: seq<Profile>, userId: string)
    requires exists p :: p in participants && p.id != userId
    ensures OtherParticipant(participants, userId).Some?
    ensures HeaderName(participants, userId) == Some(OtherParticipant(participants, userId).value.name)
  {
  }

  /**
   * In the first mock thread the investor sees the founder-side participant,
   * while the mock founder, whose id that participant shares, sees the investor.
   */
  lemma MockThreadOtherParticipant(clock: LoadClock)
    ensures OtherParticipant(MockThreads(clock)[0].participants, MockInvestor.id)
         == Some(MockFounder.(name := "Sarah Connor"))
    ensures OtherParticipant(MockThreads(clock)[0].participants, MockFounder.id) == Some(MockInvestor)
  {
    var ps := MockThreads(clock)[0].participants;
    assert ps[0].id == "inv_1" && ps[1].id == "fnd_1";
    assert FirstOther(ps, "inv_1") == Some(1);
    assert FirstOther(ps, "fnd_1") == Some(0);
  }

  /** The inbox preview: `last_message?.content || 'No messages yet'`. */
  function Preview(t: Thread): (s: string)
    ensures t.lastMessage.Some? && t.lastMessage.value.content != "" ==> s == t.lastMessage.value.content
    ensures t.lastMessage.None? || t.lastMessage.value.content == "" ==> s == "No messages yet"
  {
    if t.lastMessage.Some? && t.lastMessage.value.content != "" then t.lastMessage.value.content
    else "No messages yet"
  }

  /** `isMe`: a message is drawn on the user's side exactly when the user sent it. */
  predicate IsMine(m: Message, userId: string)
  {
    m.senderId == userId
  }

  /**
   * In a conversation between two people, a message from one of them is drawn
   * on the viewer's side exactly when it does not come from the participant
   * the inbox shows for that viewer.
   */
  lemma MineIffNotFromOther(participants: seq<Profile>, userId: string, m: Message)
    requires |participants| == 2 && participants[0].id != participants[1].id
    requires userId == participants[0].id || userId == participants[1].id
    requires m.senderId == participants[0].id || m.senderId == participants[1].id
    ensures OtherParticipant(participants, userId).Some?
    ensures IsMine(m, userId) <==> m.senderId != OtherParticipant(participants, userId).value.id
  {
    if userId == participants[0].id {
      assert FirstOther(participants[1..], userId) == Some(0);
      assert FirstOther(participants, userId) == Some(1);
    } else {
      assert FirstOther(participants, userId) == Some(0);
    }
  }

  /** The text the smart-reply chip puts in the composer. */
  const SmartReplyText: string := "Let's schedule a time to dive deeper into the metrics."

  /** The page's state for one signed-in user. */
  class MessagesView {
    const userId: string
    var threads: seq<Thread>
    var selected: Option<Thread>
    var inputText: string
    var messages: seq<Message>
    var loading: bool

    constructor (userId: string)
      ensures this.userId == userId
      ensures threads == [] && selected.None? && inputText == "" && messages == [] && loading
    {
      this.userId := userId;
      threads := [];
      selected := None;
      inputText := "";
      messages := [];
      loading := true;
    }

    /** The threads arrive: they are stored, the first one is selected if there is one, and loading ends. */
    method ThreadsLoaded(data: seq<Thread>)
      modifies this
      ensures threads == data && !loading
      ensures data != [] ==> selected == Some(data[0])
      ensures data == [] ==> selected == old(selected)
      ensures inputText == old(inputText) && messages == old(messages)
    {
      threads := data;
      if |data| > 0 {
        selected := Some(data[0]);
      }
      loading := false;
    }

    /** Clicking a thread in the inbox. */
    method SelectThread(t: Thread)
      modifies this
      ensures selected == Some(t)
      ensures threads == old(threads) && inputText == old(inputText) && messages == old(messages)
      ensures loading == old(loading)
    {
      selected := Some(t);
    }

    /** Typing in the composer. */
    method SetInput(text: string)
      modifies this
      ensures inputText == text
      ensures threads == old(threads) && selected == old(selected) && messages == old(messages)
      ensures loading == old(loading)
    {
      inputText := text;
    }

    /** `handleAISmartReply`: fills the composer with a fixed sentence and changes nothing else. */
    method SmartReply()
      modifies this
      ensures inputText == SmartReplyText
      ensures threads == old(threads) && selected == old(selected) && messages == old(messages)
      ensures loading == old(loading)
    {
      inputText := SmartReplyText;
    }

    /**
     * `handleSend`: with a non-blank input and a selected thread, appends one
     * message carrying the untrimmed input and clears the composer; otherwise
     * nothing changes.
     */
    method Send(stampId: string, createdAt: string) returns (sent: Option<Message>)
      modifies this
      ensures Trim(old(inputText)) == [] || old(selected).None? ==>
        sent.None? && messages == old(messages) && inputText == old(inputText)
      ensures Trim(old(inputText)) != [] && old(selected).Some? ==>
        sent == Some(Message(stampId, old(selected).value.id, userId, old(inputText), createdAt, None)) &&
        messages == old(messages) + [sent.value] &&
        inputText == ""
      ensures sent.Some? ==> IsMine(sent.value, userId) && |messages| == |old(messages)| + 1
      ensures threads == old(threads) && selected == old(selected) && loading == old(loading)
    {
      if Trim(inputText) == [] || selected.None? {
        sent := None;
        return;
      }
      var msg := Message(stampId, selected.value.id, userId, inputText, createdAt, None);
      messages := messages + [msg];
      inputText := "";
      sent := Some(msg);
    }
  }
}
