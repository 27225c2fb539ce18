/** The booking view-model (`BookingData` and its parts) and the
    classification of a service title into a session type. */
module BookingTypes {
  import opened Wrappers
  import opened Text

  datatype SessionType = Communication | Behavioral | Healing | Mediumship

  /** The string a `SessionType` is stored and displayed as. */
  function SessionTypeName(t: SessionType): string {
    match t
    case Communication => "communication"
    case Behavioral => "behavioral"
    case Healing => "healing"
    case Mediumship => "mediumship"
  }

  datatype BookingStatus =
    | PaymentPending | PaymentConfirmed | Scheduled | InProgress
    | Completed | Cancelled | NoShow

  function StatusName(s: BookingStatus): string {
    match s
    case PaymentPending => "payment-pending"
    case PaymentConfirmed => "payment-confirmed"
    case Scheduled => "scheduled"
    case InProgress => "in-progress"
    case Completed => "completed"
    case Cancelled => "cancelled"
    case NoShow => "no-show"
  }

  datatype ClientInfo = ClientInfo(
    id: string, name: string, email: string, phone: string,
    avatar: Option<string>, timezone: string, joinedDate: string)

  datatype PetInfo = PetInfo(
    id: string, name: string, petType: string, breed: Option<string>,
    age: Option<int>, photo: Option<string>, specialNeeds: Option<string>,
    previousSessions: int)

  datatype SessionDetails = SessionDetails(
    id: string, kind: SessionType, duration: int,
    scheduledDate: Option<string>, scheduledTime: Option<string>,
    platform: Option<string>, meetingLink: Option<string>,
    specialRequests: Option<string>)

  datatype PaymentInfo = PaymentInfo(
    amount: int, currency: string, paymentMethod: string,
    proofImage: Option<string>, transactionId: Option<string>, paidAt: Option<string>)

  datatype SessionNotes = SessionNotes(
    preSession: string, sessionSummary: string, insights: string,
    recommendations: string, privateNotes: string, rating: int,
    followUpNeeded: bool, nextSteps: seq<string>, completedAt: Option<string>)

  /** The notes every booking without a notes row starts with. */
  const EmptyNotes := SessionNotes("", "", "", "", "", 0, false, [], None)

  datatype Message = Message(
    id: string, senderId: string, senderName: string, content: string,
    timestamp: string, attachments: seq<string>, read: bool)

  datatype BookingData = BookingData(
    id: string, clientInfo: ClientInfo, petInfo: PetInfo,
    sessionDetails: SessionDetails, paymentInfo: PaymentInfo,
    status: BookingStatus, notes: SessionNotes, communications: seq<Message>,
    createdAt: string, updatedAt: string)

  /** The session type named by a service title: the first of
      'communication', 'behavioral', 'healing' that the lower-cased title
      contains, and 'communication' when it contains none. */
  function ClassifyTitle(title: string): (r: SessionType)
    ensures r != Mediumship
    ensures r == Communication || Contains(ToLower(title), SessionTypeName(r))
    ensures Contains(ToLower(title), "communication") ==> r == Communication
    ensures r == Healing ==> !Contains(ToLower(title), "behavioral")
    ensures var l := ToLower(title);
      !Contains(l, "communication") && Contains(l, "behavioral") ==> r == Behavioral
    ensures var l := ToLower(title);
      !Contains(l, "communication") && !Contains(l, "behavioral") && Contains(l, "healing") ==> r == Healing
    ensures var l := ToLower(title);
      !Contains(l, "communication") && !Contains(l, "behavioral") && !Contains(l, "healing") ==> r == Communication
  {
    var lower := ToLower(title);
    if Contains(lower, "communication") then Communication
    else if Contains(lower, "behavioral") then Behavioral
    else if Contains(lower, "healing") then Healing
    else Communication
  }

  /** Classification ignores ASCII case. */
  lemma ClassifyTitleIgnoresCase(title: string)
    ensures ClassifyTitle(ToLower(title)) == ClassifyTitle(title)
  {
    ToLowerIdempotent(title);
  }

  /** The titles of the service templates offered during onboarding. */
  lemma ClassifyCommunicationTemplate()
    ensures ClassifyTitle("Animal Communication Session") == Communication
  {
    CommunicationTitleLower();
    CommunicationTitleWord();
  }

  lemma CommunicationTitleWord()
    ensures OccursAt("animal communication session", "communication", 7)
  {
    var s := "animal communication session";
    assert s == "animal " + "communication" + " session";
    assert s[7..20] == "communication";
  }

  lemma CommunicationTitleLower()
    ensures ToLower("Animal Communication Session") == "animal communication session"
  {
  }

  lemma ClassifyBehavioralTemplate()
    ensures ClassifyTitle("Behavioral Consultation") == Behavioral
  {
    BehavioralTitleLower();
    var lower := "behavioral consultation";
    MissingCharNotContains(lower, "communication", 'm');
    assert OccursAt(lower, "behavioral", 0);
  }

  lemma BehavioralTitleLower()
    ensures ToLower("Behavioral Consultation") == "behavioral consultation"
  {
  }

  lemma ClassifyHealingTemplate()
    ensures ClassifyTitle("Pet Trauma Healing") == Healing
  {
    HealingTitleLower();
    HealingTitleWords();
  }

  lemma HealingTitleLower()
    ensures ToLower("Pet Trauma Healing") == "pet trauma healing"
  {
  }

  lemma HealingTitleWords()
    ensures !Contains("pet trauma healing", "communication")
    ensures !Contains("pet trauma healing", "behavioral")
    ensures Contains("pet trauma healing", "healing")
  {
    var lower := "pet trauma healing";
    MissingCharNotContains(lower, "communication", 'c');
    MissingCharNotContains(lower, "behavioral", 'b');
    assert OccursAt(lower, "healing", 11);
  }

  lemma ClassifyEndOfLifeTemplate()
    ensures ClassifyTitle("End-of-Life Support") == Communication
  {
    EndOfLifeTitleLower();
    EndOfLifeTitleWords();
  }

  lemma EndOfLifeTitleLower()
    ensures ToLower("End-of-Life Support") == "end-of-life support"
  {
  }

  lemma EndOfLifeTitleWords()
    ensures !Contains("end-of-life support", "communication")
    ensures !Contains("end-of-life support", "behavioral")
    ensures !Contains("end-of-life support", "healing")
  {
    var lower := "end-of-life support";
    MissingCharNotContains(lower, "communication", 'c');
    MissingCharNotContains(lower, "behavioral", 'b');
    MissingCharNotContains(lower, "healing", 'h');
  }
}
