/** The bookings screen's list: a tab filter, the search box, the structured
    filters and a stable sort, all over the fetched list, plus the tab
    counters. `parse` stands for `new Date(s).getTime()` and `collate` for the
    order `localeCompare` induces (a rank, so `a.localeCompare(b)` has the
    sign of `collate(a) - collate(b)`). */
module BookingsHistory {
  import opened Wrappers
  import opened Text
  import opened Seqs
  import opened StableSort
  import opened BookingTypes

  datatype Tab = PendingTab | ConfirmedTab | HistoryTab

  /** Tab membership by status; 'in-progress' is on no tab. */
  predicate InTab(s: BookingStatus, t: Tab) {
    match t
    case PendingTab => s == PaymentPending
    case ConfirmedTab => s == Scheduled || s == PaymentConfirmed
    case HistoryTab => s == Completed || s == Cancelled || s == NoShow
  }

  /** Every status but 'in-progress' is on exactly one tab. */
  lemma TabsPartitionStatuses(s: BookingStatus)
    ensures s == InProgress <==> forall t :: !InTab(s, t)
    ensures forall t, u | InTab(s, t) && InTab(s, u) :: t == u
  {
    if s != InProgress {
      assert InTab(s, PendingTab) || InTab(s, ConfirmedTab) || InTab(s, HistoryTab);
    }
  }

  datatype SortField = ByDate | ByAmount | ByClient | ByStatus
  datatype SortOrder = Asc | Desc
  datatype DateRange = DateRange(start: string, end: string)

  /** `SearchFilters` less its `query`, which the list does not read (the
      search box has its own state). Absent optional filters are `None`. */
  datatype Filters = Filters(
    status: Option<seq<BookingStatus>>, serviceType: Option<seq<string>>,
    clientName: Option<string>, petName: Option<string>, dateRange: Option<DateRange>,
    minAmount: Option<int>, maxAmount: Option<int>,
    sortBy: SortField, sortOrder: SortOrder)

  const InitialFilters := Filters(None, None, None, None, None, None, None, ByDate, Desc)

  /** `if (searchQuery.trim())` guards the search, which then matches the
      lower-cased query untrimmed. */
  predicate MatchesSearch(b: BookingData, query: string) {
    Trim(query) == "" ||
      var q := ToLower(query);
      Contains(ToLower(b.clientInfo.name), q) || Contains(ToLower(b.petInfo.name), q)
      || Contains(ToLower(SessionTypeName(b.sessionDetails.kind)), q)
  }

  /** A filter value is active when JavaScript finds it truthy: a non-empty
      list, a non-empty string, a non-zero amount, any date range. */
  predicate MatchesFilters(b: BookingData, f: Filters, parse: string -> int) {
    (f.status.None? || f.status.value == [] || b.status in f.status.value)
    && (f.serviceType.None? || f.serviceType.value == []
        || SessionTypeName(b.sessionDetails.kind) in f.serviceType.value)
    && (f.clientName.None? || f.clientName.value == ""
        || Contains(ToLower(b.clientInfo.name), ToLower(f.clientName.value)))
    && (f.petName.None? || f.petName.value == ""
        || Contains(ToLower(b.petInfo.name), ToLower(f.petName.value)))
    && (f.dateRange.None?
        || (parse(f.dateRange.value.start) <= parse(b.createdAt) <= parse(f.dateRange.value.end)))
    && (f.minAmount.None? || f.minAmount.value == 0 || b.paymentInfo.amount >= f.minAmount.value)
    && (f.maxAmount.None? || f.maxAmount.value == 0 || b.paymentInfo.amount <= f.maxAmount.value)
  }

  predicate Keep(b: BookingData, tab: Tab, query: string, f: Filters, parse: string -> int) {
    InTab(b.status, tab) && MatchesSearch(b, query) && MatchesFilters(b, f, parse)
  }

  function KeepFn(tab: Tab, query: string, f: Filters, parse: string -> int): BookingData -> bool {
    (b: BookingData) => Keep(b, tab, query, f, parse)
  }

  /** The comparator's key; `desc` negates the comparison, which is the
      ascending sort by the negated key. */
  function SortKey(f: Filters, parse: string -> int, collate: string -> real): BookingData -> real {
    (b: BookingData) =>
      var k := match f.sortBy
        case ByDate => parse(b.createdAt) as real
        case ByAmount => b.paymentInfo.amount as real
        case ByClient => collate(b.clientInfo.name)
        case ByStatus => collate(StatusName(b.status));
      if f.sortOrder == Asc then k else -k
  }

  /** `filteredBookings`: the kept bookings, stably sorted. */
  function FilteredBookings(bookings: seq<BookingData>, tab: Tab, query: string, f: Filters,
                            parse: string -> int, collate: string -> real): (r: seq<BookingData>)
    ensures multiset(r) == multiset(Filter(bookings, KeepFn(tab, query, f, parse)))
    ensures forall b | b in r :: b in bookings && Keep(b, tab, query, f, parse)
    ensures forall b | b in bookings && Keep(b, tab, query, f, parse) :: b in r
    ensures Sorted(r, SortKey(f, parse, collate))
    ensures forall k :: KeyClass(r, SortKey(f, parse, collate), k)
                     == KeyClass(Filter(bookings, KeepFn(tab, query, f, parse)), SortKey(f, parse, collate), k)
  {
    var kept := Filter(bookings, KeepFn(tab, query, f, parse));
    var r := SortBy(kept, SortKey(f, parse, collate));
    assert forall b | b in r :: b in kept by {
      forall b | b in r ensures b in kept {
        assert b in multiset(r);
      }
    }
    assert forall b | b in kept :: b in r by {
      forall b | b in kept ensures b in r {
        assert b in multiset(kept);
      }
    }
    forall k ensures KeyClass(r, SortKey(f, parse, collate), k) == KeyClass(kept, SortKey(f, parse, collate), k) {
      SortByStable(kept, SortKey(f, parse, collate), k);
    }
    r
  }

  /** Running the list through the same tab, search and filters again
      changes nothing. */
  lemma FilteredBookingsIdempotent(bookings: seq<BookingData>, tab: Tab, query: string, f: Filters,
                                   parse: string -> int, collate: string -> real)
    ensures var once := FilteredBookings(bookings, tab, query, f, parse, collate);
            FilteredBookings(once, tab, query, f, parse, collate) == once
  {
    var once := FilteredBookings(bookings, tab, query, f, parse, collate);
    FilterAll(once, KeepFn(tab, query, f, parse));
    SortBySorted(once, SortKey(f, parse, collate));
  }

  /** A whitespace-only search box filters nothing; a query with a trailing
      space only matches names that contain that space. */
  lemma BlankSearchKeepsAll(b: BookingData, query: string)
    requires Blank(query)
    ensures MatchesSearch(b, query)
  {
  }

  /** A minimum amount of 0 is no bound at all: `0` is falsy, so even a
      negative amount passes it. */
  lemma ZeroMinAmountDisabled(b: BookingData, f: Filters, parse: string -> int)
    requires f.minAmount == Some(0)
    ensures MatchesFilters(b, f, parse) == MatchesFilters(b, f.(minAmount := None), parse)
  {
  }

  function IsTab(t: Tab): BookingData -> bool {
    (b: BookingData) => InTab(b.status, t)
  }

  function IsInProgress(): BookingData -> bool {
    (b: BookingData) => b.status == InProgress
  }

  datatype TabCounts = TabCounts(pending: nat, confirmed: nat, history: nat)

  /** `getTabCounts()`: over the whole fetched list, not the filtered one. */
  function GetTabCounts(bookings: seq<BookingData>): (r: TabCounts)
    ensures r.pending == Count(bookings, (b: BookingData) => b.status == PaymentPending)
    ensures r.confirmed == Count(bookings, (b: BookingData) => b.status == Scheduled || b.status == PaymentConfirmed)
    ensures r.history == Count(bookings, (b: BookingData) => b.status == Completed || b.status == Cancelled || b.status == NoShow)
    ensures r.pending + r.confirmed + r.history + Count(bookings, IsInProgress()) == |bookings|
    ensures r.pending + r.confirmed + r.history <= |bookings|
    ensures r.pending + r.confirmed + r.history == |bookings| <==> forall b | b in bookings :: b.status != InProgress
  {
    CountsAddUp(bookings);
    NoneInProgress(bookings);
    FilterExt(bookings, IsTab(PendingTab), (b: BookingData) => b.status == PaymentPending);
    FilterExt(bookings, IsTab(ConfirmedTab), (b: BookingData) => b.status == Scheduled || b.status == PaymentConfirmed);
    FilterExt(bookings, IsTab(HistoryTab),
              (b: BookingData) => b.status == Completed || b.status == Cancelled || b.status == NoShow);
    TabCounts(Count(bookings, IsTab(PendingTab)), Count(bookings, IsTab(ConfirmedTab)),
              Count(bookings, IsTab(HistoryTab)))
  }

  /** A tab's badge. */
  function TabCount(c: TabCounts, tab: Tab): nat {
    match tab
    case PendingTab => c.pending
    case ConfirmedTab => c.confirmed
    case HistoryTab => c.history
  }

  /** With an empty search box and the initial filters, each badge is the
      length of the list its tab shows. */
  lemma TabCountIsListLength(bookings: seq<BookingData>, tab: Tab, parse: string -> int, collate: string -> real)
    ensures TabCount(GetTabCounts(bookings), tab) == |FilteredBookings(bookings, tab, "", InitialFilters, parse, collate)|
  {
    var r := FilteredBookings(bookings, tab, "", InitialFilters, parse, collate);
    var keep := KeepFn(tab, "", InitialFilters, parse);
    assert Trim("") == "";
    FilterExt(bookings, keep, IsTab(tab));
    assert |r| == |multiset(r)| == |multiset(Filter(bookings, keep))| == |Filter(bookings, keep)|;
  }

  lemma NoneInProgress(bookings: seq<BookingData>)
    ensures Count(bookings, IsInProgress()) == 0 <==> forall b | b in bookings :: b.status != InProgress
  {
    if Count(bookings, IsInProgress()) != 0 {
      assert Filter(bookings, IsInProgress())[0] in Filter(bookings, IsInProgress());
    }
    forall b | b in bookings && b.status == InProgress ensures Count(bookings, IsInProgress()) > 0 {
      assert b in Filter(bookings, IsInProgress());
    }
  }

  lemma {:induction false} CountsAddUp(bookings: seq<BookingData>)
    ensures Count(bookings, IsTab(PendingTab)) + Count(bookings, IsTab(ConfirmedTab))
          + Count(bookings, IsTab(HistoryTab)) + Count(bookings, IsInProgress()) == |bookings|
    decreases |bookings|
  {
    if bookings != [] {
      CountsAddUp(bookings[1..]);
      TabsPartitionStatuses(bookings[0].status);
    }
  }

  /** Four bookings: one pending, one scheduled, one completed and one
      cancelled count as 1, 1 and 2. */
  lemma TabCountsExample(b0: BookingData, b1: BookingData, b2: BookingData, b3: BookingData)
    requires b0.status == PaymentPending && b1.status == Scheduled
    requires b2.status == Completed && b3.status == Cancelled
    ensures GetTabCounts([b0, b1, b2, b3]) == TabCounts(1, 1, 2)
  {
    var s := [b0, b1, b2, b3];
    CountFour(s, IsTab(PendingTab));
    CountFour(s, IsTab(ConfirmedTab));
    CountFour(s, IsTab(HistoryTab));
  }

  lemma CountFour<T(!new)>(s: seq<T>, p: T -> bool)
    requires |s| == 4
    ensures Count(s, p) == OneIf(p(s[0])) + OneIf(p(s[1])) + OneIf(p(s[2])) + OneIf(p(s[3]))
  {
    CountCons(s, p);
    CountCons(s[1..], p);
    CountCons(s[2..], p);
    CountCons(s[3..], p);
    assert s[1..][1..] == s[2..] && s[2..][1..] == s[3..] && s[3..][1..] == [];
  }

  function OneIf(b: bool): nat {
    if b then 1 else 0
  }
}
