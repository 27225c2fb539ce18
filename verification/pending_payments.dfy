/** The pending-payments tab: urgency and "time ago" per booking, the unread
    counter, expandable cards and the two-message preview. `now` is the
    clock reading and `created` the booking's parsed `createdAt`, both in
    milliseconds. */
module PendingPayments {
  import opened Text
  import opened Seqs
  import opened BookingTypes
  import opened Elapsed

  /** `getTimeAgo`: days when at least one whole day has passed, else hours
      when at least one whole hour has, else "Just now". */
  function TimeAgo(now: int, created: int): (r: string)
    ensures now - created < MsPerHour ==> r == "Just now"
    ensures MsPerHour <= now - created < 24 * MsPerHour ==> r == Ago(WholeHours(now - created), "hour")
    ensures now - created >= 24 * MsPerHour ==> r == Ago(WholeHours(now - created) / 24, "day")
  {
    var hours := WholeHours(now - created);
    var days := hours / 24;
    if days > 0 then Ago(days, "day")
    else if hours > 0 then Ago(hours, "hour")
    else "Just now"
  }

  datatype Urgency = Low | Medium | High

  /** `getUrgencyLevel`: from the fractional number of hours elapsed. */
  function UrgencyLevel(now: int, created: int): (r: Urgency)
    ensures var hours := (now - created) as real / MsPerHour as real;
      (r == High <==> hours > 48.0) && (r == Medium <==> 24.0 < hours <= 48.0)
      && (r == Low <==> hours <= 24.0)
  {
    var hours := (now - created) as real / MsPerHour as real;
    if hours > 48.0 then High else if hours > 24.0 then Medium else Low
  }

  /** A creation time in the future reads "Just now" and is not urgent. */
  lemma FutureIsJustNowAndLow(now: int, created: int)
    requires created > now
    ensures TimeAgo(now, created) == "Just now"
    ensures UrgencyLevel(now, created) == Low
  {
  }

  /** Urgency rises with age: a later clock reading never lowers it. */
  lemma UrgencyMonotone(now: int, later: int, created: int)
    requires now <= later
    ensures UrgencyLevel(now, created) == High ==> UrgencyLevel(later, created) == High
    ensures UrgencyLevel(now, created) == Medium ==> UrgencyLevel(later, created) != Low
  {
    assert (now - created) as real / MsPerHour as real <= (later - created) as real / MsPerHour as real;
  }

  function IsUnread(): Message -> bool {
    (m: Message) => !m.read
  }

  /** `communications.filter(msg => !msg.read).length`. */
  function UnreadCount(b: BookingData): (r: nat)
    ensures r <= |b.communications|
    ensures r == 0 <==> forall m | m in b.communications :: m.read
  {
    var unread := Filter(b.communications, IsUnread());
    assert unread != [] ==> unread[0] in unread;
    |unread|
  }

  /** The count grows by one for each unread message and by nothing for a
      read one, so it is exactly the number of unread messages. */
  lemma UnreadCountCons(b: BookingData, m: Message, ms: seq<Message>)
    requires b.communications == [m] + ms
    ensures UnreadCount(b) == (if m.read then 0 else 1) + UnreadCount(b.(communications := ms))
  {
    FilterCons(b.communications, IsUnread());
    assert b.communications[1..] == ms;
  }

  /** Every message unread: the count is the number of messages. */
  lemma {:induction false} AllUnreadCount(b: BookingData)
    requires forall m | m in b.communications :: !m.read
    ensures UnreadCount(b) == |b.communications|
    decreases |b.communications|
  {
    if b.communications != [] {
      var m, ms := b.communications[0], b.communications[1..];
      assert b.communications == [m] + ms;
      UnreadCountCons(b, m, ms);
      AllUnreadCount(b.(communications := ms));
    }
  }

  /** `toggleCardExpansion(id)` on the set of expanded card ids. */
  function ToggleCardExpansion(expanded: set<string>, id: string): (r: set<string>)
    ensures id in r <==> id !in expanded
    ensures forall other | other != id :: other in r <==> other in expanded
  {
    ToggleSet(expanded, id)
  }

  lemma ToggleCardExpansionTwice(expanded: set<string>, id: string)
    ensures ToggleCardExpansion(ToggleCardExpansion(expanded, id), id) == expanded
  {
    ToggleSetTwice(expanded, id);
  }

  /** `communications.slice(-2)`: the last two messages, or all of them when
      there are fewer, in their original order. */
  function RecentMessages(b: BookingData): (r: seq<Message>)
    ensures |r| == if |b.communications| < 2 then |b.communications| else 2
    ensures b.communications == b.communications[..|b.communications| - |r|] + r
  {
    var r := TakeLast(b.communications, 2);
    var k := |b.communications| - |r|;
    assert b.communications == b.communications[..k] + b.communications[k..];
    r
  }
}
