/** The session-history tab: the most-recent-first order, the star rating,
    the per-session CSV export and the "detailed notes" test. `parse` stands
    for `new Date(s).getTime()` and `formatDate` for the locale date format. */
module SessionHistory {
  import opened Wrappers
  import opened Text
  import opened StableSort
  import opened BookingTypes

  /** `notes.completedAt || updatedAt`. */
  function FinishedAt(b: BookingData): string {
    OptOr(b.notes.completedAt, b.updatedAt)
  }

  /** The comparator `dateB - dateA` is the ascending sort by the negated
      time. */
  function NewestFirst(parse: string -> int): BookingData -> real {
    (b: BookingData) => -(parse(FinishedAt(b)) as real)
  }

  /** `[...bookings].sort(...)`: a stably sorted copy, newest first. */
  function SortedBookings(bookings: seq<BookingData>, parse: string -> int): (r: seq<BookingData>)
    ensures multiset(r) == multiset(bookings)
    ensures forall i, j | 0 <= i < j < |r| :: parse(FinishedAt(r[i])) >= parse(FinishedAt(r[j]))
    ensures forall k :: KeyClass(r, NewestFirst(parse), k) == KeyClass(bookings, NewestFirst(parse), k)
  {
    var r := SortBy(bookings, NewestFirst(parse));
    assert forall i, j | 0 <= i < j < |r| :: NewestFirst(parse)(r[i]) <= NewestFirst(parse)(r[j]);
    forall k ensures KeyClass(r, NewestFirst(parse), k) == KeyClass(bookings, NewestFirst(parse), k) {
      SortByStable(bookings, NewestFirst(parse), k);
    }
    r
  }

  /** A list already newest first is shown as it is. */
  lemma SortedBookingsKeepsNewestFirst(bookings: seq<BookingData>, parse: string -> int)
    requires forall i, j | 0 <= i < j < |bookings| :: parse(FinishedAt(bookings[i])) >= parse(FinishedAt(bookings[j]))
    ensures SortedBookings(bookings, parse) == bookings
  {
    SortBySorted(bookings, NewestFirst(parse));
  }

  /** The text next to the stars: "(r/5)" for a positive rating. */
  function RatingLabel(rating: int): string {
    if rating > 0 then "(" + IntToString(rating) + "/5)" else "Not rated"
  }

  /** Star `k` (1 to 5) is drawn filled iff `k <= rating`. */
  predicate StarFilled(star: int, rating: int) {
    star <= rating
  }

  function OneIf(b: bool): nat {
    if b then 1 else 0
  }

  /** How many of the five stars are filled: the rating clamped to 0..5. */
  function FilledStars(rating: int): (r: nat)
    ensures r == if rating < 0 then 0 else if rating > 5 then 5 else rating
  {
    OneIf(StarFilled(1, rating)) + OneIf(StarFilled(2, rating)) + OneIf(StarFilled(3, rating))
    + OneIf(StarFilled(4, rating)) + OneIf(StarFilled(5, rating))
  }

  /** "Not rated" exactly when no star is filled. */
  lemma NotRatedIffNoStars(rating: int)
    ensures RatingLabel(rating) == "Not rated" <==> FilledStars(rating) == 0
  {
    if rating > 0 {
      assert RatingLabel(rating)[0] == '(';
    }
  }

  const ExportKeys: seq<string> := [
    "Session ID", "Client", "Pet", "Service Type", "Date", "Duration",
    "Amount", "Rating", "Status", "Session Summary", "Insights", "Recommendations"]

  /** The export's values, in key order: the identifying fields as they are,
      the duration in minutes, the amount in dollars, the rating out of five
      or "Not rated", the status and the three note texts. */
  function ExportValues(b: BookingData, formatDate: string -> string): (r: seq<string>)
    ensures |r| == |ExportKeys|
    ensures r[..3] == [b.id, b.clientInfo.name, b.petInfo.name]
    ensures r[3] == SessionTypeName(b.sessionDetails.kind) && r[4] == formatDate(b.createdAt)
    ensures var d := IntToString(b.sessionDetails.duration);
      |r[5]| == |d| + 8 && r[5][..|d|] == d && r[5][|d|..] == " minutes"
    ensures |r[6]| >= 2 && r[6][0] == '$' && r[6][1..] == IntToString(b.paymentInfo.amount)
    ensures r[7] == "Not rated" <==> b.notes.rating <= 0
    ensures b.notes.rating > 0 ==>
      var d := NatToString(b.notes.rating);
      |r[7]| == |d| + 2 && r[7][..|d|] == d && r[7][|d|..] == "/5"
    ensures r[8] == StatusName(b.status)
    ensures r[9..] == [b.notes.sessionSummary, b.notes.insights, b.notes.recommendations]
  {
    [b.id, b.clientInfo.name, b.petInfo.name, SessionTypeName(b.sessionDetails.kind),
     formatDate(b.createdAt),
     IntToString(b.sessionDetails.duration) + " minutes",
     "$" + IntToString(b.paymentInfo.amount),
     if b.notes.rating > 0 then IntToString(b.notes.rating) + "/5" else "Not rated",
     StatusName(b.status), b.notes.sessionSummary, b.notes.insights, b.notes.recommendations]
  }

  /** The exported rating agrees with the stars on screen: "Not rated"
      exactly when no star is filled. */
  lemma ExportRatingMatchesStars(b: BookingData, formatDate: string -> string)
    ensures ExportValues(b, formatDate)[7] == "Not rated" <==> FilledStars(b.notes.rating) == 0
  {
  }

  /** `"key","value"`, with nothing escaped. */
  function CsvLine(key: string, value: string): (r: string)
    ensures |r| == |key| + |value| + 5
    ensures r[0] == '"' && r[1..1 + |key|] == key && r[1 + |key|..4 + |key|] == "\",\""
    ensures r[4 + |key|..|r| - 1] == value && r[|r| - 1] == '"'
    ensures forall c | c in r :: c == '"' || c == ',' || c in key || c in value
  {
    "\"" + key + "\",\"" + value + "\""
  }

  function ExportLines(b: BookingData, formatDate: string -> string): (r: seq<string>)
    ensures |r| == 12
    ensures forall i | 0 <= i < 12 :: r[i] == CsvLine(ExportKeys[i], ExportValues(b, formatDate)[i])
  {
    var values := ExportValues(b, formatDate);
    seq(12, i requires 0 <= i < 12 => CsvLine(ExportKeys[i], values[i]))
  }

  /** `exportSessionData`'s text: the lines joined by '\n'. */
  function ExportCsv(b: BookingData, formatDate: string -> string): string {
    Join(ExportLines(b, formatDate), "\n")
  }

  /** When no value holds a line break, the export splits back into its
      twelve key-value lines. */
  lemma ExportCsvLines(b: BookingData, formatDate: string -> string)
    requires forall i | 0 <= i < 12 :: '\n' !in ExportValues(b, formatDate)[i]
    ensures Split(ExportCsv(b, formatDate), '\n') == ExportLines(b, formatDate)
  {
    var lines := ExportLines(b, formatDate);
    var values := ExportValues(b, formatDate);
    forall i | 0 <= i < 12 ensures '\n' !in lines[i] {
      KeysHaveNoLineBreak(i);
      CsvLineNoBreak(ExportKeys[i], values[i]);
    }
    SplitJoin(lines, '\n');
  }

  lemma KeysHaveNoLineBreak(i: int)
    requires 0 <= i < 12
    ensures '\n' !in ExportKeys[i]
  {
  }

  lemma CsvLineNoBreak(key: string, value: string)
    requires '\n' !in key && '\n' !in value
    ensures '\n' !in CsvLine(key, value)
  {
  }

  /** `session-<id>-<pet name, lower-cased>.csv`. */
  function ExportFileName(b: BookingData): (r: string)
    ensures |r| == |b.id| + |b.petInfo.name| + 13
    ensures r[..8] == "session-" && r[|r| - 4..] == ".csv"
    ensures r[8..8 + |b.id|] == b.id && r[8 + |b.id|] == '-'
    ensures r[9 + |b.id|..|r| - 4] == ToLower(b.petInfo.name)
  {
    "session-" + b.id + "-" + ToLower(b.petInfo.name) + ".csv"
  }

  /** `sessionSummary || insights || recommendations`. */
  predicate HasDetailedNotes(n: SessionNotes) {
    n.sessionSummary != "" || n.insights != "" || n.recommendations != ""
  }

  /** Notes as first created carry no detail. */
  lemma EmptyNotesHaveNoDetail()
    ensures !HasDetailedNotes(EmptyNotes)
  {
  }
}
