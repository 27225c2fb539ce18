/** The inquiries list: rows fetched for the signed-in communicator and the
    active tab, shaped for display, filtered by tab and counted per tab. The
    database query is modelled by its filter; `now` is the clock reading and
    `createdAt` the parsed creation time, both in milliseconds. */
module InquiriesList {
  import opened Wrappers
  import opened Text
  import opened Seqs
  import opened Elapsed
  import PendingPayments

  datatype Status = New | Active | Declined

  /** The joined client profile; a missing join has both names absent. */
  datatype ClientNames = ClientNames(fullName: Option<string>, displayName: Option<string>)

  /** An `inquiries` row with its client join. */
  datatype InquiryRow = InquiryRow(
    id: string, communicatorId: string, client: Option<ClientNames>,
    petName: string, petType: string, serviceType: string,
    preferredTime: Option<string>, message: string, createdAt: int,
    status: Status, isUrgent: Option<bool>)

  /** An inquiry as the list shows it. */
  datatype Inquiry = Inquiry(
    id: string, clientName: string, petName: string, petType: string,
    serviceType: string, preferredTime: string, message: string,
    timestamp: string, status: Status, urgent: bool)

  /** `getTimeAgo`: whole hours elapsed; under one hour "Just now", under a
      day in hours, otherwise in whole days. */
  function TimeAgo(now: int, created: int): (r: string)
    ensures WholeHours(now - created) < 1 ==> r == "Just now"
    ensures 1 <= WholeHours(now - created) < 24 ==> r == Ago(WholeHours(now - created), "hour")
    ensures WholeHours(now - created) >= 24 ==> r == Ago(WholeHours(now - created) / 24, "day")
  {
    var hours := WholeHours(now - created);
    if hours < 1 then "Just now"
    else if hours < 24 then Ago(hours, "hour")
    else Ago(hours / 24, "day")
  }

  /** The list's label is the one the pending-payments tab computes, for
      every pair of times, although the two are written differently. */
  lemma {:induction false} TimeAgoAgreesWithPendingPayments(now: int, created: int)
    ensures TimeAgo(now, created) == PendingPayments.TimeAgo(now, created)
  {
    var ms := now - created;
    var h := WholeHours(ms);
    if h < 1 {
      assert ms < MsPerHour;
    } else if h < 24 {
      assert MsPerHour <= ms < 24 * MsPerHour;
    } else {
      assert ms >= 24 * MsPerHour;
    }
  }

  /** An optional name that is present and non-empty, so `||` keeps it. */
  predicate Named(o: Option<string>) {
    o.Some? && o.value != ""
  }

  /** `client?.display_name || client?.full_name || 'Unknown Client'`. */
  function ClientName(c: Option<ClientNames>): (r: string)
    ensures r != ""
    ensures c.None? ==> r == "Unknown Client"
    ensures c.Some? && Named(c.value.displayName) ==> r == c.value.displayName.value
    ensures c.Some? && !Named(c.value.displayName) && Named(c.value.fullName) ==> r == c.value.fullName.value
    ensures c.Some? && !Named(c.value.displayName) && !Named(c.value.fullName) ==> r == "Unknown Client"
  {
    match c
    case None => "Unknown Client"
    case Some(n) => OptOr(n.displayName, OptOr(n.fullName, "Unknown Client"))
  }

  /** One row as displayed. */
  function FormatInquiry(row: InquiryRow, now: int): (r: Inquiry)
    ensures r.id == row.id && r.status == row.status && r.message == row.message
    ensures r.petName == row.petName && r.petType == row.petType && r.serviceType == row.serviceType
    ensures r.clientName == ClientName(row.client)
    ensures r.preferredTime == OptOr(row.preferredTime, "Flexible")
    ensures r.urgent <==> row.isUrgent == Some(true)
    ensures r.timestamp == PendingPayments.TimeAgo(now, row.createdAt)
  {
    TimeAgoAgreesWithPendingPayments(now, row.createdAt);
    Inquiry(row.id, ClientName(row.client), row.petName, row.petType, row.serviceType,
            OptOr(row.preferredTime, "Flexible"), row.message, TimeAgo(now, row.createdAt),
            row.status, row.isUrgent.GetOr(false))
  }

  function RowMatches(userId: string, tab: Status): InquiryRow -> bool {
    (row: InquiryRow) => row.communicatorId == userId && row.status == tab
  }

  /** `fetchInquiries()`: the signed-in communicator's rows with the active
      tab's status, formatted; the table is given newest first. */
  function Fetch(table: seq<InquiryRow>, userId: string, tab: Status, now: int): (r: seq<Inquiry>)
    ensures |r| == |Filter(table, RowMatches(userId, tab))|
    ensures forall i | 0 <= i < |r| :: r[i] == FormatInquiry(Filter(table, RowMatches(userId, tab))[i], now)
    ensures forall i | 0 <= i < |r| :: r[i].status == tab
  {
    var rows := Filter(table, RowMatches(userId, tab));
    assert forall i | 0 <= i < |rows| :: rows[i].status == tab by {
      forall i | 0 <= i < |rows| ensures rows[i].status == tab {
        assert rows[i] in rows;
      }
    }
    seq(|rows|, i requires 0 <= i < |rows| => FormatInquiry(rows[i], now))
  }

  function HasStatus(tab: Status): Inquiry -> bool {
    (q: Inquiry) => q.status == tab
  }

  /** `filteredInquiries`: the inquiries in the active tab, in list order. */
  function FilteredInquiries(qs: seq<Inquiry>, tab: Status): (r: seq<Inquiry>)
    ensures forall q | q in r :: q in qs && q.status == tab
    ensures forall q | q in qs && q.status == tab :: q in r
    ensures forall q :: multiset(r)[q] == if q.status == tab then multiset(qs)[q] else 0
  {
    Filter(qs, HasStatus(tab))
  }

  datatype TabCounts = TabCounts(newCount: nat, activeCount: nat, declinedCount: nat)

  /** `getTabCounts()`. */
  function GetTabCounts(qs: seq<Inquiry>): (r: TabCounts)
    ensures r.newCount == |FilteredInquiries(qs, New)|
    ensures r.activeCount == |FilteredInquiries(qs, Active)|
    ensures r.declinedCount == |FilteredInquiries(qs, Declined)|
    ensures r.newCount + r.activeCount + r.declinedCount == |qs|
  {
    CountsPartition(qs);
    TabCounts(Count(qs, HasStatus(New)), Count(qs, HasStatus(Active)), Count(qs, HasStatus(Declined)))
  }

  /** Every inquiry has exactly one of the three statuses, so the counts add
      up to the length. */
  lemma {:induction false} CountsPartition(qs: seq<Inquiry>)
    ensures Count(qs, HasStatus(New)) + Count(qs, HasStatus(Active)) + Count(qs, HasStatus(Declined)) == |qs|
    decreases |qs|
  {
    if qs != [] {
      CountsPartition(qs[1..]);
    }
  }

  /** Right after a fetch every listed inquiry is in the active tab: the
      filter keeps them all and the other tabs count zero. */
  lemma {:induction false} AfterFetch(table: seq<InquiryRow>, userId: string, tab: Status, now: int)
    ensures var qs := Fetch(table, userId, tab, now);
      FilteredInquiries(qs, tab) == qs
      && (var c := GetTabCounts(qs);
          (tab == New ==> c.newCount == |qs| && c.activeCount == 0 && c.declinedCount == 0)
          && (tab == Active ==> c.activeCount == |qs| && c.newCount == 0 && c.declinedCount == 0)
          && (tab == Declined ==> c.declinedCount == |qs| && c.newCount == 0 && c.activeCount == 0))
  {
    var qs := Fetch(table, userId, tab, now);
    FilterAll(qs, HasStatus(tab));
    CountsPartition(qs);
  }

  /** `acceptInquiry(id)` followed by the refresh: the row's status becomes
      active in the table. */
  function Accept(table: seq<InquiryRow>, id: string): (r: seq<InquiryRow>)
    ensures |r| == |table|
    ensures forall i | 0 <= i < |table| ::
      r[i] == if table[i].id == id then table[i].(status := Active) else table[i]
  {
    seq(|table|, i requires 0 <= i < |table| => if table[i].id == id then table[i].(status := Active) else table[i])
  }

  /** An accepted inquiry leaves the "new" tab on the refresh that follows. */
  lemma AcceptedLeavesNewTab(table: seq<InquiryRow>, userId: string, id: string, now: int)
    ensures forall q | q in Fetch(Accept(table, id), userId, New, now) :: q.id != id
  {
    var rows := Filter(Accept(table, id), RowMatches(userId, New));
    forall q | q in Fetch(Accept(table, id), userId, New, now) ensures q.id != id {
      var i :| 0 <= i < |rows| && q == FormatInquiry(rows[i], now);
      assert rows[i] in Accept(table, id);
    }
  }
}
