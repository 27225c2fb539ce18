/** The availability step: per weekday, the list of selected hourly slots,
    kept as an object from day name to slot list. */
module AvailabilityStep {
  import opened Wrappers
  import opened Seqs
  import opened Dict
  import opened Onboarding

  type Availability = Dict<seq<string>>

  /** The twelve bookable slots, in display order. */
  const TimeSlots: seq<string> := [
    "9:00 AM", "10:00 AM", "11:00 AM", "12:00 PM",
    "1:00 PM", "2:00 PM", "3:00 PM", "4:00 PM",
    "5:00 PM", "6:00 PM", "7:00 PM", "8:00 PM"]

  /** `availability[day] || []`. */
  function DaySlots(a: Availability, day: string): seq<string> {
    Get(a, day).GetOr([])
  }

  /** `toggleTimeSlot(day, time)`: flips `time` in that day's list. */
  function ToggleTimeSlot(a: Availability, day: string, time: string): (r: Availability)
    ensures time in DaySlots(r, day) <==> time !in DaySlots(a, day)
    ensures forall t | t != time :: t in DaySlots(r, day) <==> t in DaySlots(a, day)
    ensures forall other | other != day :: Get(r, other) == Get(a, other)
  {
    var updated := Toggle(DaySlots(a, day), time);
    GetSet(a, day, updated, day);
    assert forall other | other != day :: Get(Set(a, day, updated), other) == Get(a, other) by {
      forall other | other != day {
        GetSet(a, day, updated, other);
      }
    }
    Set(a, day, updated)
  }

  /** `toggleAllDay(day)`: a full day (twelve slots) is cleared, any other day
      gets all twelve slots in display order. */
  function ToggleAllDay(a: Availability, day: string): (r: Availability)
    ensures DaySlots(r, day) == if IsAllSelected(a, day) then [] else TimeSlots
    ensures forall other | other != day :: Get(r, other) == Get(a, other)
  {
    var updated := if |DaySlots(a, day)| == |TimeSlots| then [] else TimeSlots;
    GetSet(a, day, updated, day);
    assert forall other | other != day :: Get(Set(a, day, updated), other) == Get(a, other) by {
      forall other | other != day {
        GetSet(a, day, updated, other);
      }
    }
    Set(a, day, updated)
  }

  /** The "All day" control shows as selected iff the day has twelve slots. */
  predicate IsAllSelected(a: Availability, day: string) {
    |DaySlots(a, day)| == 12
  }

  /** From a partial day, "All day" twice gives full then empty; from a full
      day it gives empty then full. */
  lemma ToggleAllDayTwice(a: Availability, day: string)
    ensures !IsAllSelected(a, day) ==>
      IsAllSelected(ToggleAllDay(a, day), day) && DaySlots(ToggleAllDay(ToggleAllDay(a, day), day), day) == []
    ensures IsAllSelected(a, day) ==>
      DaySlots(ToggleAllDay(a, day), day) == [] && DaySlots(ToggleAllDay(ToggleAllDay(a, day), day), day) == TimeSlots
  {
  }

  /** `getTotalSlots()`: the sum of the list lengths over all days. */
  function TotalSlots(a: Availability): nat
    decreases |a|
  {
    if a == [] then 0 else |a[0].value| + TotalSlots(a[1..])
  }

  /** Writing a day's list changes the total by the change in that day's
      length. */
  lemma {:induction false} TotalSlotsSet(a: Availability, day: string, v: seq<string>)
    ensures TotalSlots(Set(a, day, v)) == TotalSlots(a) - |DaySlots(a, day)| + |v|
    decreases |a|
  {
    if a != [] && a[0].key != day {
      TotalSlotsSet(a[1..], day, v);
      assert ([a[0]] + Set(a[1..], day, v))[1..] == Set(a[1..], day, v);
    } else if a != [] {
      assert ([Entry(day, v)] + a[1..])[1..] == a[1..];
    }
  }

  /** Toggling one slot moves the total by exactly one when the day's list
      has no duplicates. */
  lemma ToggleTimeSlotTotal(a: Availability, day: string, time: string)
    requires NoDuplicates(DaySlots(a, day))
    ensures TotalSlots(ToggleTimeSlot(a, day, time))
         == if time in DaySlots(a, day) then TotalSlots(a) - 1 else TotalSlots(a) + 1
  {
    var s := DaySlots(a, day);
    TotalSlotsSet(a, day, Toggle(s, time));
    if time in s {
      NoDuplicatesMultiset(s);
      assert multiset(s)[time] == 1;
      assert |Filter(s, Except(time))| == |multiset(Filter(s, Except(time)))|;
      assert multiset(Filter(s, Except(time))) == multiset(s) - multiset{time};
    }
  }

  /** The step writes its map to the record on every change. */
  function ToggleTimeSlotStep(d: OnboardingData, day: string, time: string): (r: OnboardingData)
    ensures r == d.(availability := Some(ToggleTimeSlot(d.availability.GetOr([]), day, time)))
  {
    UpdateOneField(d);
    UpdateData(d, EmptyPatch.(availability := Some(Some(ToggleTimeSlot(d.availability.GetOr([]), day, time)))))
  }

  function ToggleAllDayStep(d: OnboardingData, day: string): (r: OnboardingData)
    ensures r == d.(availability := Some(ToggleAllDay(d.availability.GetOr([]), day)))
  {
    UpdateOneField(d);
    UpdateData(d, EmptyPatch.(availability := Some(Some(ToggleAllDay(d.availability.GetOr([]), day)))))
  }
}
