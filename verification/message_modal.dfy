/** The booking message dialog: a local copy of the booking's messages, a
    draft, and the template picker. `now` is the clock reading in
    milliseconds and `nowIso` its ISO rendering. */
module MessageModal {
  import opened Text
  import opened BookingTypes

  datatype Modal = Modal(messages: seq<Message>, draft: string, showTemplates: bool)

  const PetNamePlaceholder := "[pet name]"

  const Templates: seq<string> := [
    "Thank you for your booking! I'm looking forward to connecting with [pet name].",
    "I've reviewed your payment and everything looks good. Your session is confirmed!",
    "Could you please provide more details about [pet name]'s recent behavior?",
    "Your session has been completed. I'll send over the detailed notes shortly.",
    "Thank you for choosing our services. Please don't hesitate to reach out with any questions."]

  /** The dialog opens on the booking's own messages. */
  function Open(b: BookingData): (r: Modal)
    ensures r.messages == b.communications && r.draft == "" && !r.showTemplates
  {
    Modal(b.communications, "", false)
  }

  /** `handleSendMessage`: a blank draft changes nothing; otherwise one
      message, from 'practitioner' as 'You', read, without attachments and
      holding the trimmed draft, is appended, and the draft and picker are
      cleared. */
  function SendMessage(m: Modal, now: nat, nowIso: string): (r: Modal)
    ensures Blank(m.draft) ==> r == m
    ensures !Blank(m.draft) ==>
      |r.messages| == |m.messages| + 1 && r.messages[..|m.messages|] == m.messages
      && r.draft == "" && !r.showTemplates
    ensures !Blank(m.draft) ==>
      var sent := r.messages[|m.messages|];
      sent.content == Trim(m.draft) && sent.content != "" && sent.senderId == "practitioner"
      && sent.senderName == "You" && sent.read && sent.attachments == [] && sent.timestamp == nowIso
      && sent.id == "msg-" + NatToString(now)
  {
    if Trim(m.draft) == "" then
      m
    else
      var message := Message("msg-" + NatToString(now), "practitioner", "You", Trim(m.draft), nowIso, [], true);
      Modal(m.messages + [message], "", false)
  }

  /** Enter without Shift sends; any other key, Shift+Enter included, does
      nothing. */
  function KeyPress(m: Modal, key: string, shift: bool, now: nat, nowIso: string): (r: Modal)
    ensures key == "Enter" && !shift ==> r == SendMessage(m, now, nowIso)
    ensures key != "Enter" || shift ==> r == m
  {
    if key == "Enter" && !shift then SendMessage(m, now, nowIso) else m
  }

  /** `template.replace('[pet name]', petName)`: the draft becomes the
      template with its first placeholder filled in. */
  function SelectTemplate(m: Modal, template: string, petName: string): (r: Modal)
    ensures r.messages == m.messages && !r.showTemplates
    ensures r.draft == ReplaceFirst(template, PetNamePlaceholder, petName)
  {
    Modal(m.messages, ReplaceFirst(template, PetNamePlaceholder, petName), false)
  }

  /** A template `before + "[pet name]" + after` whose `before` holds no '['
      gets the pet name in that one place, provided the name holds no '$'
      (which `replace` would expand). */
  lemma FillPlaceholder(before: string, after: string, petName: string)
    requires '[' !in before && '$' !in petName
    ensures ReplaceFirst(before + PetNamePlaceholder + after, PetNamePlaceholder, petName)
         == before + petName + after
  {
    var s := before + PetNamePlaceholder + after;
    assert OccursAt(s, PetNamePlaceholder, |before|) by {
      assert s[|before|..|before| + |PetNamePlaceholder|] == PetNamePlaceholder;
    }
    forall j | 0 <= j < |before| ensures !OccursAt(s, PetNamePlaceholder, j) {
      assert s[j] == before[j] && before[j] in before;
    }
    ReplaceFirstLiteral(s, PetNamePlaceholder, petName);
    assert s[..|before|] == before;
    assert s[|before| + |PetNamePlaceholder|..] == after;
  }

  /** The first template, personalised. */
  lemma FirstTemplateForPet(petName: string)
    requires '$' !in petName
    ensures ReplaceFirst(Templates[0], PetNamePlaceholder, petName)
         == "Thank you for your booking! I'm looking forward to connecting with " + petName + "."
  {
    var before := "Thank you for your booking! I'm looking forward to connecting with ";
    FirstTemplateShape();
    NoBracketInGreeting();
    FillPlaceholder(before, ".", petName);
  }

  lemma FirstTemplateShape()
    ensures Templates[0] == "Thank you for your booking! I'm looking forward to connecting with " + PetNamePlaceholder + "."
  {
    var before := "Thank you for your booking! I'm looking forward to connecting with ";
    assert Templates[0] == "Thank you for your booking! I'm looking forward to connecting with [pet name].";
    assert before + PetNamePlaceholder == "Thank you for your booking! I'm looking forward to connecting with [pet name]";
  }

  lemma NoBracketInGreeting()
    ensures '[' !in "Thank you for your booking! I'm looking forward to connecting with "
  {
    GreetingHalves();
    HalvesLackBracket();
    NotInConcat("Thank you for your booking! I'm lo", "oking forward to connecting with ", '[');
  }

  lemma GreetingHalves()
    ensures "Thank you for your booking! I'm lo" + "oking forward to connecting with "
         == "Thank you for your booking! I'm looking forward to connecting with "
  {
  }

  lemma HalvesLackBracket()
    ensures '[' !in "Thank you for your booking! I'm lo" && '[' !in "oking forward to connecting with "
  {
  }

  lemma NotInConcat(a: string, b: string, c: char)
    requires c !in a && c !in b
    ensures c !in a + b
  {
  }

  /** `isOwnMessage`. */
  predicate IsOwnMessage(msg: Message) {
    msg.senderId == "practitioner"
  }

  /** Every message sent from the dialog is shown as the user's own, and the
      ones it already had keep their placement. */
  lemma SentMessagesAreOwn(m: Modal, now: nat, nowIso: string)
    requires !Blank(m.draft)
    ensures var r := SendMessage(m, now, nowIso);
      IsOwnMessage(r.messages[|m.messages|])
      && forall i | 0 <= i < |m.messages| :: IsOwnMessage(r.messages[i]) == IsOwnMessage(m.messages[i])
  {
  }
}
