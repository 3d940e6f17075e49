/** The booking panel of a turf's page: the set of selected slot start
    times, the price of the selection, and the checks made when the user
    asks to book. */
module TurfDetail {
  import opened Wrappers
  import opened Types
  import Lists

  /** A click on a slot button. A button is enabled only for an available
      slot, so only such a slot reaches the toggle. */
  function Click(selected: seq<Instant>, slot: TimeSlot): (r: seq<Instant>)
    ensures !slot.isAvailable ==> r == selected
    ensures slot.isAvailable ==> r == Lists.Toggle(selected, slot.startTime)
    ensures forall t :: t in r ==> t in selected || (slot.isAvailable && t == slot.startTime)
  {
    if slot.isAvailable then Lists.Toggle(selected, slot.startTime) else selected
  }

  /** The selection after a run of clicks, in order. */
  function ClickAll(selected: seq<Instant>, clicks: seq<TimeSlot>): seq<Instant>
    decreases |clicks|
  {
    if clicks == [] then selected else ClickAll(Click(selected, clicks[0]), clicks[1..])
  }

  /** Whatever slots the user clicks, every start time selected afterwards
      was selected before or is that of an available slot that was clicked. */
  lemma {:induction false} OnlyAvailableSlotsSelected(selected: seq<Instant>, clicks: seq<TimeSlot>)
    ensures forall t :: t in ClickAll(selected, clicks) ==>
              t in selected || exists k :: 0 <= k < |clicks| && clicks[k].isAvailable && clicks[k].startTime == t
    decreases |clicks|
  {
    if clicks != [] {
      var next := Click(selected, clicks[0]);
      OnlyAvailableSlotsSelected(next, clicks[1..]);
      forall t | t in ClickAll(selected, clicks)
        ensures t in selected || exists k :: 0 <= k < |clicks| && clicks[k].isAvailable && clicks[k].startTime == t
      {
        if t !in next {
          var k :| 0 <= k < |clicks[1..]| && clicks[1..][k].isAvailable && clicks[1..][k].startTime == t;
          assert clicks[k + 1] == clicks[1..][k];
        } else if t !in selected {
          assert clicks[0].isAvailable && clicks[0].startTime == t;
        }
      }
    }
  }

  /** A run of clicks keeps a duplicate-free selection duplicate-free. */
  lemma {:induction false} ClicksKeepNoDup(selected: seq<Instant>, clicks: seq<TimeSlot>)
    requires Lists.NoDup(selected)
    ensures Lists.NoDup(ClickAll(selected, clicks))
    decreases |clicks|
  {
    if clicks != [] {
      if clicks[0].isAvailable {
        Lists.ToggleNoDup(selected, clicks[0].startTime);
      }
      ClicksKeepNoDup(Click(selected, clicks[0]), clicks[1..]);
    }
  }

  /** What the "Book Now" button leads to. */
  datatype BookingOutcome =
    | LoginRequired      // "Please login to book this turf"
    | NoSlotSelected     // "Please select at least one time slot"
    | Initiated          // "Booking initiated. Redirecting to payment..."

  /** The page's own state: the selected slot start times. */
  class TurfDetailPage {
    var selectedTimeSlots: seq<Instant>

    /** The selection never holds a start time twice. */
    ghost predicate Valid()
      reads this
    {
      Lists.NoDup(selectedTimeSlots)
    }

    constructor ()
      ensures Valid() && selectedTimeSlots == []
    {
      selectedTimeSlots := [];
    }

    /** Removes every occurrence of a selected start time, or appends an
        unselected one at the end. */
    method HandleTimeSlotSelection(startTime: Instant)
      requires Valid()
      modifies this
      ensures Valid()
      ensures selectedTimeSlots == Lists.Toggle(old(selectedTimeSlots), startTime)
    {
      Lists.ToggleNoDup(selectedTimeSlots, startTime);
      if startTime in selectedTimeSlots {
        selectedTimeSlots := Lists.RemoveAll(selectedTimeSlots, startTime);
      } else {
        selectedTimeSlots := selectedTimeSlots + [startTime];
      }
    }

    /** The `onClick` of a slot button. */
    method ClickSlot(slot: TimeSlot)
      requires Valid()
      modifies this
      ensures Valid()
      ensures selectedTimeSlots == Click(old(selectedTimeSlots), slot)
    {
      if slot.isAvailable {
        HandleTimeSlotSelection(slot.startTime);
      }
    }

    /** Half the hourly price per selected slot; 0 while the turf is absent. */
    function CalculateTotalPrice(turf: Option<Turf>): (r: real)
      reads this
      ensures turf.None? ==> r == 0.0
      ensures turf.Some? ==> 2.0 * r == (|selectedTimeSlots| * turf.value.pricePerHour) as real
    {
      if turf.None? then 0.0
      else (|selectedTimeSlots| as real) * (turf.value.pricePerHour as real / 2.0)
    }

    /** The checks of the "Book Now" button, in order: a user is logged in,
        then at least one slot is selected. */
    function HandleBooking(user: Option<User>): (r: BookingOutcome)
      reads this
      ensures user.None? ==> r == LoginRequired
      ensures r == NoSlotSelected <==> user.Some? && selectedTimeSlots == []
      ensures r == Initiated <==> user.Some? && selectedTimeSlots != []
    {
      if user.None? then LoginRequired
      else if |selectedTimeSlots| == 0 then NoSlotSelected
      else Initiated
    }
  }
}
