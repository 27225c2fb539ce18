/** The inquiry chat: a message list, a draft and the quick replies. `now`
    is the clock reading in milliseconds and `nowIso` its ISO rendering. */
module ChatView {
  import opened Text

  datatype MessageKind = TextMessage | SystemMessage | PaymentMessage | ImageMessage

  datatype ChatMessage = ChatMessage(
    id: string, senderId: string, senderName: string, content: string,
    timestamp: string, kind: MessageKind)

  datatype Chat = Chat(messages: seq<ChatMessage>, draft: string)

  /** `handleSendMessage`: a blank draft changes nothing; otherwise a text
      message from 'practitioner' with the trimmed draft is appended and the
      draft cleared. */
  function SendMessage(c: Chat, now: nat, nowIso: string): (r: Chat)
    ensures Blank(c.draft) ==> r == c
    ensures !Blank(c.draft) ==>
      |r.messages| == |c.messages| + 1 && r.messages[..|c.messages|] == c.messages && r.draft == ""
    ensures !Blank(c.draft) ==>
      var sent := r.messages[|c.messages|];
      sent.content == Trim(c.draft) && sent.content != "" && sent.kind == TextMessage
      && sent.senderId == "practitioner" && sent.senderName == "You" && sent.timestamp == nowIso
      && sent.id == NatToString(now)
  {
    if Trim(c.draft) == "" then
      c
    else
      Chat(c.messages + [ChatMessage(NatToString(now), "practitioner", "You", Trim(c.draft), nowIso, TextMessage)], "")
  }

  /** Enter without Shift sends; any other key does nothing. */
  function KeyPress(c: Chat, key: string, shift: bool, now: nat, nowIso: string): (r: Chat)
    ensures key == "Enter" && !shift ==> r == SendMessage(c, now, nowIso)
    ensures key != "Enter" || shift ==> r == c
  {
    if key == "Enter" && !shift then SendMessage(c, now, nowIso) else c
  }

  /** A quick reply replaces the draft wholesale and sends nothing. */
  function QuickReply(c: Chat, reply: string): (r: Chat)
    ensures r.messages == c.messages && r.draft == reply
  {
    c.(draft := reply)
  }

  /** Picking a quick reply and pressing Enter sends that reply, trimmed,
      whatever the draft held before. */
  lemma QuickReplyThenSend(c: Chat, reply: string, now: nat, nowIso: string)
    requires !Blank(reply)
    ensures var r := KeyPress(QuickReply(c, reply), "Enter", false, now, nowIso);
      r.messages == c.messages + [ChatMessage(NatToString(now), "practitioner", "You", Trim(reply), nowIso, TextMessage)]
  {
  }

  predicate IsOwnMessage(m: ChatMessage) {
    m.senderId == "practitioner"
  }

  datatype Placement = Centered | Right | Left

  /** System notices are centred whoever sent them; other messages go right
      when they are the user's own and left otherwise. */
  function PlacementOf(m: ChatMessage): (r: Placement)
    ensures r == Centered <==> m.kind == SystemMessage
    ensures r == Right <==> m.kind != SystemMessage && IsOwnMessage(m)
  {
    if m.kind == SystemMessage then Centered
    else if IsOwnMessage(m) then Right
    else Left
  }

  /** A sent message always lands on the right. */
  lemma SentMessageOnRight(c: Chat, now: nat, nowIso: string)
    requires !Blank(c.draft)
    ensures PlacementOf(SendMessage(c, now, nowIso).messages[|c.messages|]) == Right
  {
  }
}
