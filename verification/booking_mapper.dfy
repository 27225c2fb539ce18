/** The `.map` in `fetchBookings`: one joined `bookings` row (with its
    client, pet, service, session-notes and message rows) becomes one
    `BookingData`, with a fallback for every missing value. A joined row that
    is missing altogether reads as one whose every column is absent, so the
    client, pet and service are plain records of optional columns here. */
module BookingMapper {
  import opened Wrappers
  import opened Text
  import opened BookingTypes

  datatype RawClient = RawClient(
    id: Option<string>, fullName: Option<string>, displayName: Option<string>,
    email: Option<string>, phoneNumber: Option<string>, timezone: Option<string>)

  datatype RawPet = RawPet(
    id: Option<string>, name: Option<string>, petType: Option<string>,
    breed: Option<string>, age: Option<int>, photo: Option<string>,
    specialNeeds: Option<string>)

  /** A `session_notes` row, with the backend's snake_case column names. */
  datatype RawNotes = RawNotes(
    preSessionNotes: string, sessionSummary: string, insights: string,
    recommendations: string, privateNotes: string, rating: int,
    followUpNeeded: bool, nextSteps: seq<string>, completedAt: Option<string>)

  datatype RawMessage = RawMessage(
    id: string, senderId: string, content: string, createdAt: string, isRead: bool)

  datatype RawBooking = RawBooking(
    id: string, client: RawClient, pet: RawPet, serviceTitle: Option<string>,
    sessionNotes: seq<RawNotes>, messages: seq<RawMessage>,
    duration: int, scheduledDate: Option<string>, scheduledTime: Option<string>,
    platform: Option<string>, meetingLink: Option<string>, specialRequests: Option<string>,
    amount: int, currency: Option<string>, paymentMethod: Option<string>,
    paymentProof: Option<string>, transactionId: Option<string>, paidAt: Option<string>,
    status: BookingStatus, createdAt: string, updatedAt: string)

  /** JavaScript truthiness of an optional string. */
  predicate Truthy(o: Option<string>) {
    o.Some? && o.value != ""
  }

  /** `display_name || full_name || 'Unknown Client'`. */
  function ClientName(c: RawClient): (r: string)
    ensures r != ""
    ensures Truthy(c.displayName) ==> r == c.displayName.value
    ensures !Truthy(c.displayName) && Truthy(c.fullName) ==> r == c.fullName.value
    ensures !Truthy(c.displayName) && !Truthy(c.fullName) ==> r == "Unknown Client"
  {
    OptOr(c.displayName, OptOr(c.fullName, "Unknown Client"))
  }

  /** `created_at.split('T')[0]`: the date part of an ISO timestamp. */
  function JoinedDate(createdAt: string): string {
    Split(createdAt, 'T')[0]
  }

  /** On `<date>T<time>` the joined date is `<date>`. */
  lemma JoinedDateOfTimestamp(date: string, time: string)
    requires 'T' !in date
    ensures JoinedDate(date + "T" + time) == date
  {
    SplitAfterPart(date, 'T', time);
  }

  function MapClient(c: RawClient, createdAt: string): (r: ClientInfo)
    ensures r.name == ClientName(c)
    ensures r.id == OptOr(c.id, "") && r.email == OptOr(c.email, "") && r.phone == OptOr(c.phoneNumber, "")
    ensures r.timezone == OptOr(c.timezone, "America/New_York")
    ensures r.avatar.None?
    ensures r.joinedDate == JoinedDate(createdAt)
  {
    ClientInfo(OptOr(c.id, ""), ClientName(c), OptOr(c.email, ""), OptOr(c.phoneNumber, ""),
               None, OptOr(c.timezone, "America/New_York"), JoinedDate(createdAt))
  }

  function MapPet(p: RawPet): (r: PetInfo)
    ensures r.id == OptOr(p.id, "")
    ensures r.name == OptOr(p.name, "Unknown Pet") && r.name != ""
    ensures r.petType == OptOr(p.petType, "Unknown") && r.petType != ""
    ensures r.breed == p.breed && r.age == p.age && r.photo == p.photo && r.specialNeeds == p.specialNeeds
    ensures r.previousSessions == 0
  {
    PetInfo(OptOr(p.id, ""), OptOr(p.name, "Unknown Pet"), OptOr(p.petType, "Unknown"),
            p.breed, p.age, p.photo, p.specialNeeds, 0)
  }

  /** One message: 'You' for the signed-in user's own messages, otherwise the
      client's display name or 'Client'; no attachments. */
  function MapMessage(m: RawMessage, userId: string, client: RawClient): (r: Message)
    ensures r.id == m.id && r.senderId == m.senderId && r.content == m.content
    ensures r.timestamp == m.createdAt && r.read == m.isRead && r.attachments == []
    ensures m.senderId == userId ==> r.senderName == "You"
    ensures m.senderId != userId ==> r.senderName == OptOr(client.displayName, "Client")
  {
    Message(m.id, m.senderId,
            if m.senderId == userId then "You" else OptOr(client.displayName, "Client"),
            m.content, m.createdAt, [], m.isRead)
  }

  /** Messages keep their number and order. */
  function MapMessages(ms: seq<RawMessage>, userId: string, client: RawClient): (r: seq<Message>)
    ensures |r| == |ms|
    ensures forall i | 0 <= i < |ms| :: r[i] == MapMessage(ms[i], userId, client)
  {
    if ms == [] then [] else [MapMessage(ms[0], userId, client)] + MapMessages(ms[1..], userId, client)
  }

  /** The sender name is 'You' exactly for the user's own messages, unless the
      client's display name is itself 'You'. */
  lemma YouIffOwnMessage(m: RawMessage, userId: string, client: RawClient)
    requires client.displayName != Some("You")
    ensures MapMessage(m, userId, client).senderName == "You" <==> m.senderId == userId
  {
  }

  /** What a reader of `SessionNotes` sees: `None` where the property it reads
      is `undefined`. */
  datatype NotesView = NotesView(
    preSession: Option<string>, sessionSummary: Option<string>, insights: Option<string>,
    recommendations: Option<string>, privateNotes: Option<string>, rating: Option<int>,
    followUpNeeded: Option<bool>, nextSteps: Option<seq<string>>, completedAt: Option<string>)

  function ViewOf(n: SessionNotes): NotesView {
    NotesView(Some(n.preSession), Some(n.sessionSummary), Some(n.insights),
              Some(n.recommendations), Some(n.privateNotes), Some(n.rating),
              Some(n.followUpNeeded), Some(n.nextSteps), n.completedAt)
  }

  /** `session_notes?.[0] || defaults` as written: the fetched row is used as
      it is, so only the properties whose snake_case and camelCase names agree
      (`insights`, `recommendations`, `rating`) can be read; the others are
      `undefined`. */
  function NotesAsWritten(rows: seq<RawNotes>): (r: NotesView)
    ensures rows == [] ==> r == ViewOf(EmptyNotes)
    ensures rows != [] ==> r.insights == Some(rows[0].insights) && r.rating == Some(rows[0].rating)
  {
    if rows == [] then ViewOf(EmptyNotes)
    else
      var n := rows[0];
      NotesView(None, None, Some(n.insights), Some(n.recommendations), None, Some(n.rating),
                None, None, None)
  }

  /** A saved session summary is unreadable after the fetch. */
  lemma NotesAsWrittenLoseSummary(rows: seq<RawNotes>)
    requires rows != [] && rows[0].sessionSummary != ""
    ensures NotesAsWritten(rows).sessionSummary != Some(rows[0].sessionSummary)
    ensures NotesAsWritten(rows).completedAt.None? && NotesAsWritten(rows).nextSteps.None?
  {
  }

  /** The intended mapping: each snake_case column to its camelCase field. */
  function MapNotes(rows: seq<RawNotes>): (r: SessionNotes)
    ensures rows == [] ==> r == EmptyNotes
    ensures rows != [] ==> ViewOf(r).sessionSummary == Some(rows[0].sessionSummary)
  {
    if rows == [] then EmptyNotes
    else
      var n := rows[0];
      SessionNotes(n.preSessionNotes, n.sessionSummary, n.insights, n.recommendations,
                   n.privateNotes, n.rating, n.followUpNeeded, n.nextSteps, n.completedAt)
  }

  /** The `session_notes` row a `SessionNotes` is saved as. */
  function NotesRow(n: SessionNotes): RawNotes {
    RawNotes(n.preSession, n.sessionSummary, n.insights, n.recommendations,
             n.privateNotes, n.rating, n.followUpNeeded, n.nextSteps, n.completedAt)
  }

  /** The corrected mapping loses nothing: saving the mapped notes gives back
      the fetched row, and mapping a saved row gives back the notes. */
  lemma MapNotesRoundTrip(row: RawNotes, n: SessionNotes)
    ensures NotesRow(MapNotes([row])) == row
    ensures MapNotes([NotesRow(n)]) == n
  {
  }

  /** One row, mapped; `userId` is the signed-in communicator. */
  function MapBooking(b: RawBooking, userId: string): (r: BookingData)
    ensures r.id == b.id && r.sessionDetails.id == b.id
    ensures r.clientInfo == MapClient(b.client, b.createdAt)
    ensures r.petInfo == MapPet(b.pet)
    ensures r.sessionDetails.kind == ClassifyTitle(OptOr(b.serviceTitle, ""))
    ensures r.sessionDetails.kind != Mediumship
    ensures !Truthy(b.serviceTitle) ==> r.sessionDetails.kind == Communication
    ensures r.paymentInfo.amount == b.amount
    ensures r.paymentInfo.currency == OptOr(b.currency, "USD")
    ensures r.paymentInfo.paymentMethod == OptOr(b.paymentMethod, "bank-transfer")
    ensures r.status == b.status && r.createdAt == b.createdAt && r.updatedAt == b.updatedAt
    ensures r.notes == MapNotes(b.sessionNotes)
    ensures r.communications == MapMessages(b.messages, userId, b.client)
  {
    var details := SessionDetails(b.id, ClassifyTitle(OptOr(b.serviceTitle, "")), b.duration,
      b.scheduledDate, b.scheduledTime, b.platform, b.meetingLink, b.specialRequests);
    var payment := PaymentInfo(b.amount, OptOr(b.currency, "USD"), OptOr(b.paymentMethod, "bank-transfer"),
      b.paymentProof, b.transactionId, b.paidAt);
    BookingData(b.id, MapClient(b.client, b.createdAt), MapPet(b.pet), details, payment,
                b.status, MapNotes(b.sessionNotes), MapMessages(b.messages, userId, b.client),
                b.createdAt, b.updatedAt)
  }

  /** `(data || []).map(...)`: one view-model per row, in row order. */
  function MapBookings(rows: seq<RawBooking>, userId: string): (r: seq<BookingData>)
    ensures |r| == |rows|
    ensures forall i | 0 <= i < |rows| :: r[i] == MapBooking(rows[i], userId)
  {
    if rows == [] then [] else [MapBooking(rows[0], userId)] + MapBookings(rows[1..], userId)
  }
}
