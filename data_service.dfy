/** The in-memory data store of the marketplace (three module-level arrays
    of venues, turfs and bookings), its queries and create operations, the
    confirmation of a booking, the venue search, the default amenities of a
    sport, and the computation of a turf's half-hour slots for one day. */
module DataService {
  import opened Wrappers
  import opened Types
  import opened Text
  import Lists

  // ---------------------------------------------------------------------
  // Time slots
  // ---------------------------------------------------------------------

  const MinutesPerDay := 1440
  /** Opening and closing hour of every turf (08:00 to 22:00). */
  const StartHour := 8
  const EndHour := 22
  /** Width of one bookable slot. */
  const SlotMinutes := 30
  const SlotsPerDay := 28

  /** The calendar day of an instant on the local clock, the key that
      `toDateString` compares. Dafny's `/` rounds down, so instants before
      the epoch fall on the right day as well. */
  function DayOf(t: Instant): int {
    t / MinutesPerDay
  }

  /** Start of the `k`-th slot of the day of `date`: the date with its time of
      day set to 08:00 plus `k` half hours. */
  function SlotStart(date: Instant, k: int): Instant {
    DayOf(date) * MinutesPerDay + StartHour * 60 + SlotMinutes * k
  }

  /** A booking takes part in the availability of `turfId` on the day of
      `date` when it is for that turf, STARTS on that day and is not
      cancelled. Only the start is compared with the day. */
  predicate CountsFor(b: Booking, turfId: string, date: Instant) {
    b.turfId == turfId && DayOf(b.startTime) == DayOf(date) && b.status != Cancelled
  }

  /** The bookings that take part in the availability of `turfId` on the day
      of `date`, in store order. */
  function TurfBookings(bookings: seq<Booking>, turfId: string, date: Instant): seq<Booking> {
    Lists.Filter(bookings, b => CountsFor(b, turfId, date))
  }

  /** The three-clause conflict test between a slot and a booking. When both
      intervals are non-empty it is exactly the overlap of the half-open
      intervals, compared on raw instants. */
  function Conflicts(slotStart: Instant, slotEnd: Instant, b: Booking): (r: bool)
    ensures slotStart < slotEnd && b.startTime < b.endTime ==>
              (r <==> slotStart < b.endTime && b.startTime < slotEnd)
  {
    (slotStart >= b.startTime && slotStart < b.endTime) ||
    (slotEnd > b.startTime && slotEnd <= b.endTime) ||
    (slotStart <= b.startTime && slotEnd >= b.endTime)
  }

  /** `turfBookings.some(...)`: some booking conflicts with the slot. */
  predicate Blocked(turfBookings: seq<Booking>, slotStart: Instant, slotEnd: Instant) {
    exists b :: b in turfBookings && Conflicts(slotStart, slotEnd, b)
  }

  /** Some booking of the filtered list conflicts with a slot exactly when some
      booking of the store that counts for the turf and day does. */
  lemma BlockedByCounted(bookings: seq<Booking>, turfId: string, date: Instant)
    ensures forall slotStart, slotEnd :: Blocked(TurfBookings(bookings, turfId, date), slotStart, slotEnd) <==>
              exists b :: b in bookings && CountsFor(b, turfId, date) && Conflicts(slotStart, slotEnd, b)
  {
  }

  /** The slot list for `turfId` on the day of `date`: 28 slots of 30 minutes
      from 08:00 to 22:00 in ascending order, each unavailable exactly when a
      booking that counts for that turf and day conflicts with it.
      Unavailable slots stay in the list. */
  function AvailableSlots(bookings: seq<Booking>, turfId: string, date: Instant): (r: seq<TimeSlot>)
    ensures |r| == SlotsPerDay
    ensures r[0].startTime == DayOf(date) * MinutesPerDay + StartHour * 60
    ensures r[SlotsPerDay - 1].endTime == DayOf(date) * MinutesPerDay + EndHour * 60
    ensures forall k :: 0 <= k < |r| ==> r[k].endTime == r[k].startTime + SlotMinutes
    ensures forall k :: 0 <= k < |r| - 1 ==> r[k].endTime == r[k + 1].startTime
    ensures forall k :: 0 <= k < |r| ==>
              (!r[k].isAvailable <==>
                 exists b :: b in bookings && CountsFor(b, turfId, date) &&
                             Conflicts(r[k].startTime, r[k].endTime, b))
  {
    BlockedByCounted(bookings, turfId, date);
    SlotsFrom(TurfBookings(bookings, turfId, date), date)
  }

  /** The 28 slots of the day of `date`, each marked by the already filtered
      bookings. */
  function SlotsFrom(turfBookings: seq<Booking>, date: Instant): seq<TimeSlot> {
    seq(SlotsPerDay, k requires 0 <= k < SlotsPerDay =>
      TimeSlot(SlotStart(date, k), SlotStart(date, k) + SlotMinutes,
               !Blocked(turfBookings, SlotStart(date, k), SlotStart(date, k) + SlotMinutes)))
  }

  /** A booking that does not count for the turf and day (cancelled, for
      another turf, or starting on another day) never changes the slot list,
      wherever it stands in the store. */
  lemma IgnoredBookingIsIrrelevant(before: seq<Booking>, b: Booking, after: seq<Booking>,
                                   turfId: string, date: Instant)
    requires !CountsFor(b, turfId, date)
    ensures AvailableSlots(before + [b] + after, turfId, date) == AvailableSlots(before + after, turfId, date)
  {
    var p := (x: Booking) => CountsFor(x, turfId, date);
    Lists.FilterAppend(before + [b], after, p);
    Lists.FilterAppend(before, [b], p);
    Lists.FilterAppend(before, after, p);
    assert TurfBookings(before + [b] + after, turfId, date) == TurfBookings(before + after, turfId, date);
  }

  /** With no booking that counts for the turf and day, every slot is available. */
  lemma NoBookingsAllAvailable(bookings: seq<Booking>, turfId: string, date: Instant)
    requires forall i :: 0 <= i < |bookings| ==> !CountsFor(bookings[i], turfId, date)
    ensures forall k :: 0 <= k < SlotsPerDay ==> AvailableSlots(bookings, turfId, date)[k].isAvailable
  {
  }

  /** Adding a booking that counts for the turf and day makes exactly the
      slots it conflicts with unavailable and leaves the others as they were. */
  lemma AddedBookingBlocksConflictingSlots(bookings: seq<Booking>, b: Booking, turfId: string, date: Instant, k: nat)
    requires CountsFor(b, turfId, date)
    requires k < SlotsPerDay
    ensures AvailableSlots(bookings + [b], turfId, date)[k].isAvailable ==
              (AvailableSlots(bookings, turfId, date)[k].isAvailable &&
               !Conflicts(SlotStart(date, k), SlotStart(date, k) + SlotMinutes, b))
  {
    Lists.FilterAppend(bookings, [b], x => CountsFor(x, turfId, date));
  }

  /** A booking that starts on the day before and runs past midnight is not
      taken into account, even though it covers the first slots of the day. */
  lemma MidnightSpanningBookingIgnored(day: int)
    ensures var b := Booking("b1", "T", "u1", day * MinutesPerDay - 60, day * MinutesPerDay + 10 * 60,
                             1000, Confirmed, None, "");
            var slots := AvailableSlots([b], "T", day * MinutesPerDay);
            Conflicts(slots[0].startTime, slots[0].endTime, b) &&
            forall k :: 0 <= k < SlotsPerDay ==> slots[k].isAvailable
  {
    var b := Booking("b1", "T", "u1", day * MinutesPerDay - 60, day * MinutesPerDay + 10 * 60,
                     1000, Confirmed, None, "");
    assert DayOf(b.startTime) == day - 1;
    assert DayOf(day * MinutesPerDay) == day;
    assert !CountsFor(b, "T", day * MinutesPerDay);
  }

  /** A confirmed booking from 09:00 to 10:00 makes the 09:00 and 09:30 slots
      unavailable and no others. */
  lemma ExampleHourBooking(day: int)
    ensures var b := Booking("b1", "T", "u1", day * MinutesPerDay + 9 * 60, day * MinutesPerDay + 10 * 60,
                             1000, Confirmed, None, "");
            var slots := AvailableSlots([b], "T", day * MinutesPerDay + 12 * 60);
            forall k :: 0 <= k < SlotsPerDay ==> (slots[k].isAvailable <==> k != 2 && k != 3)
  {
    var b := Booking("b1", "T", "u1", day * MinutesPerDay + 9 * 60, day * MinutesPerDay + 10 * 60,
                     1000, Confirmed, None, "");
    var date := day * MinutesPerDay + 12 * 60;
    assert DayOf(b.startTime) == day && DayOf(date) == day;
    var slots := AvailableSlots([b], "T", date);
    forall k | 0 <= k < SlotsPerDay ensures slots[k].isAvailable <==> k != 2 && k != 3 {
      assert slots[k].startTime == day * MinutesPerDay + 8 * 60 + 30 * k;
    }
  }

  /** The same booking, cancelled, leaves all 28 slots available. */
  lemma ExampleCancelledBooking(day: int)
    ensures var b := Booking("b1", "T", "u1", day * MinutesPerDay + 9 * 60, day * MinutesPerDay + 10 * 60,
                             1000, Cancelled, None, "");
            forall k :: 0 <= k < SlotsPerDay ==> AvailableSlots([b], "T", day * MinutesPerDay)[k].isAvailable
  {
  }

  /** A booking from 09:15 to 09:45, not aligned to the slots, makes both the
      09:00 and the 09:30 slot unavailable and no others. */
  lemma ExampleUnalignedBooking(day: int)
    ensures var b := Booking("b1", "T", "u1", day * MinutesPerDay + 9 * 60 + 15, day * MinutesPerDay + 9 * 60 + 45,
                             1000, Pending, None, "");
            var slots := AvailableSlots([b], "T", day * MinutesPerDay);
            forall k :: 0 <= k < SlotsPerDay ==> (slots[k].isAvailable <==> k != 2 && k != 3)
  {
    var b := Booking("b1", "T", "u1", day * MinutesPerDay + 9 * 60 + 15, day * MinutesPerDay + 9 * 60 + 45,
                     1000, Pending, None, "");
    var date := day * MinutesPerDay;
    assert DayOf(b.startTime) == day && DayOf(date) == day;
    var slots := AvailableSlots([b], "T", date);
    forall k | 0 <= k < SlotsPerDay ensures slots[k].isAvailable <==> k != 2 && k != 3 {
      assert slots[k].startTime == day * MinutesPerDay + 8 * 60 + 30 * k;
    }
  }

  // ---------------------------------------------------------------------
  // Venue search and default amenities
  // ---------------------------------------------------------------------

  /** The search test of one venue against an already lower-cased query: its
      name, its address, or its description when that is present and not
      empty, contains the query. */
  predicate MatchesQuery(v: Venue, lowerQuery: string) {
    Contains(ToLower(v.name), lowerQuery) ||
    Contains(ToLower(v.address), lowerQuery) ||
    (v.description.Some? && v.description.value != "" && Contains(ToLower(v.description.value), lowerQuery))
  }

  /** The amenities a new turf of a sport starts with. */
  function DefaultAmenitiesForSport(sportType: SportType): (r: seq<string>)
    ensures sportType == Other <==> r == []
    ensures sportType != Other ==> |r| == 3
    ensures Lists.NoDup(r)
    ensures forall i :: 0 <= i < |r| ==> r[i] != ""
  {
    match sportType
    case Football => ["Goals", "Corner Flags", "Changing Rooms"]
    case Cricket => ["Wickets", "Practice Nets", "Pavilion"]
    case Basketball => ["Hoops", "Scoreboard", "Indoor Court"]
    case Tennis => ["Nets", "Racket Rental", "Court Lighting"]
    case Badminton => ["Nets", "Shuttle Rental", "Indoor Court"]
    case Volleyball => ["Nets", "Ball Rental", "Court Markers"]
    case Other => []
  }

  // ---------------------------------------------------------------------
  // The store
  // ---------------------------------------------------------------------

  function SeedVenues(createdAt: string): seq<Venue> {
    [ Venue("venue1", "Sports Arena", "123 Sports Lane, Sports City",
            Some("A premium sports facility with multiple turfs"),
            Some(["https://images.unsplash.com/photo-1571150230347-58fbf83a58dd?q=80&w=2070&auto=format&fit=crop"]),
            None, "host1", createdAt),
      Venue("venue2", "City Sports Complex", "456 Stadium Road, Central District",
            Some("Multi-sport facility in the heart of the city"),
            Some(["https://images.unsplash.com/photo-1556955867-7da5f00be574?q=80&w=2070&auto=format&fit=crop"]),
            None, "host2", createdAt) ]
  }

  function SeedTurfs(createdAt: string): seq<Turf> {
    [ Turf("turf1", "Football Field A", "venue1", 1000, Football, None,
           Some("Professional football turf with floodlights"),
           ["Floodlights", "Changing Rooms", "Water Cooler"], createdAt),
      Turf("turf2", "Basketball Court 1", "venue1", 800, Basketball, None,
           Some("Indoor basketball court with wooden flooring"),
           ["Indoor", "Scoreboard", "Seating Area"], createdAt),
      Turf("turf3", "Cricket Pitch", "venue2", 1200, Cricket, None,
           Some("Standard cricket pitch with practice nets"),
           ["Practice Nets", "Equipment Rental", "Pavilion"], createdAt) ]
  }

  /** The three collections of the mock data store. */
  class Store {
    var venues: seq<Venue>
    var turfs: seq<Turf>
    var bookings: seq<Booking>

    /** The store as the module starts: two venues, three turfs, no bookings.
        `createdAt` stands for the clock reading at start-up. */
    constructor (createdAt: string)
      ensures venues == SeedVenues(createdAt) && turfs == SeedTurfs(createdAt) && bookings == []
    {
      venues := SeedVenues(createdAt);
      turfs := SeedTurfs(createdAt);
      bookings := [];
    }

    // Venues

    function GetVenueById(id: string): (r: Option<Venue>)
      reads this
      ensures r.None? <==> forall i :: 0 <= i < |venues| ==> venues[i].id != id
      ensures r.Some? ==> exists i :: 0 <= i < |venues| && venues[i] == r.value && r.value.id == id &&
                                      forall j :: 0 <= j < i ==> venues[j].id != id
    {
      Lists.Find(venues, (v: Venue) => v.id == id)
    }

    function GetVenuesByHost(hostId: string): (r: seq<Venue>)
      reads this
      ensures forall v :: v in r <==> v in venues && v.hostId == hostId
      ensures forall v :: multiset(r)[v] == if v.hostId == hostId then multiset(venues)[v] else 0
      ensures Lists.IsSubseq(r, venues)
    {
      Lists.FilterExact(venues, (v: Venue) => v.hostId == hostId);
      Lists.Filter(venues, (v: Venue) => v.hostId == hostId)
    }

    /** Appends the draft, completed with the given id and creation time. */
    method CreateVenue(venue: VenueDraft, id: string, createdAt: string) returns (newVenue: Venue)
      modifies this
      ensures newVenue == Venue(id, venue.name, venue.address, venue.description, venue.images,
                                venue.googleMapsLink, venue.hostId, createdAt)
      ensures venues == old(venues) + [newVenue]
      ensures turfs == old(turfs) && bookings == old(bookings)
    {
      newVenue := Venue(id, venue.name, venue.address, venue.description, venue.images,
                        venue.googleMapsLink, venue.hostId, createdAt);
      venues := venues + [newVenue];
    }

    // Turfs

    function GetTurfsByVenue(venueId: string): (r: seq<Turf>)
      reads this
      ensures forall t :: t in r <==> t in turfs && t.venueId == venueId
      ensures forall t :: multiset(r)[t] == if t.venueId == venueId then multiset(turfs)[t] else 0
      ensures Lists.IsSubseq(r, turfs)
    {
      Lists.FilterExact(turfs, (t: Turf) => t.venueId == venueId);
      Lists.Filter(turfs, (t: Turf) => t.venueId == venueId)
    }

    function GetTurfById(id: string): (r: Option<Turf>)
      reads this
      ensures r.None? <==> forall i :: 0 <= i < |turfs| ==> turfs[i].id != id
      ensures r.Some? ==> exists i :: 0 <= i < |turfs| && turfs[i] == r.value && r.value.id == id &&
                                      forall j :: 0 <= j < i ==> turfs[j].id != id
    {
      Lists.Find(turfs, (t: Turf) => t.id == id)
    }

    method CreateTurf(turf: TurfDraft, id: string, createdAt: string) returns (newTurf: Turf)
      modifies this
      ensures newTurf == Turf(id, turf.name, turf.venueId, turf.pricePerHour, turf.sportType,
                              turf.images, turf.description, turf.amenities, createdAt)
      ensures turfs == old(turfs) + [newTurf]
      ensures venues == old(venues) && bookings == old(bookings)
    {
      newTurf := Turf(id, turf.name, turf.venueId, turf.pricePerHour, turf.sportType,
                      turf.images, turf.description, turf.amenities, createdAt);
      turfs := turfs + [newTurf];
    }

    // Bookings

    function GetBookingsByTurf(turfId: string): (r: seq<Booking>)
      reads this
      ensures forall b :: b in r <==> b in bookings && b.turfId == turfId
      ensures forall b :: multiset(r)[b] == if b.turfId == turfId then multiset(bookings)[b] else 0
      ensures Lists.IsSubseq(r, bookings)
    {
      Lists.FilterExact(bookings, (b: Booking) => b.turfId == turfId);
      Lists.Filter(bookings, (b: Booking) => b.turfId == turfId)
    }

    function GetBookingsByUser(userId: string): (r: seq<Booking>)
      reads this
      ensures forall b :: b in r <==> b in bookings && b.userId == userId
      ensures forall b :: multiset(r)[b] == if b.userId == userId then multiset(bookings)[b] else 0
      ensures Lists.IsSubseq(r, bookings)
    {
      Lists.FilterExact(bookings, (b: Booking) => b.userId == userId);
      Lists.Filter(bookings, (b: Booking) => b.userId == userId)
    }

    /** Appends the draft as a new Pending booking. */
    method CreateBooking(booking: BookingDraft, id: string, createdAt: string) returns (newBooking: Booking)
      modifies this
      ensures newBooking == Booking(id, booking.turfId, booking.userId, booking.startTime, booking.endTime,
                                    booking.totalPrice, Pending, booking.paymentId, createdAt)
      ensures bookings == old(bookings) + [newBooking]
      ensures venues == old(venues) && turfs == old(turfs)
    {
      newBooking := Booking(id, booking.turfId, booking.userId, booking.startTime, booking.endTime,
                            booking.totalPrice, Pending, booking.paymentId, createdAt);
      bookings := bookings + [newBooking];
    }

    /** Marks the first booking with the id as Confirmed with the payment id,
        or fails with "Booking not found" and changes nothing. */
    method ConfirmBooking(bookingId: string, paymentId: string) returns (result: Result<Booking, string>)
      modifies this
      ensures result.Failure? <==> forall i :: 0 <= i < |old(bookings)| ==> old(bookings)[i].id != bookingId
      ensures result.Failure? ==> result.error == "Booking not found" && bookings == old(bookings)
      ensures result.Success? ==>
                exists i :: 0 <= i < |old(bookings)| && old(bookings)[i].id == bookingId &&
                            (forall j :: 0 <= j < i ==> old(bookings)[j].id != bookingId) &&
                            result.value == old(bookings)[i].(status := Confirmed, paymentId := Some(paymentId)) &&
                            bookings == old(bookings)[i := result.value]
      ensures venues == old(venues) && turfs == old(turfs)
    {
      var found := Lists.FindIndex(bookings, (b: Booking) => b.id == bookingId);
      if found.None? {
        return Failure("Booking not found");
      }
      var i := found.value;
      var booking := bookings[i].(status := Confirmed, paymentId := Some(paymentId));
      bookings := bookings[i := booking];
      result := Success(booking);
    }

    /** The slot list of `turfId` for the day of `date`, built hour by hour
        and, within an hour, for minute 0 and minute 30. */
    method GetAvailableTimeSlots(turfId: string, date: Instant) returns (timeSlots: seq<TimeSlot>)
      ensures timeSlots == AvailableSlots(bookings, turfId, date)
    {
      var turfBookings := TurfBookings(bookings, turfId, date);
      ghost var spec := SlotsFrom(turfBookings, date);
      timeSlots := [];
      var hour := StartHour;
      while hour < EndHour
        invariant StartHour <= hour <= EndHour
        invariant timeSlots == spec[..2 * (hour - StartHour)]
      {
        var slots := [0, 30];
        var j := 0;
        while j < |slots|
          invariant 0 <= j <= |slots|
          invariant timeSlots == spec[..2 * (hour - StartHour) + j]
        {
          var minutes := slots[j];
          var slotDate := DayOf(date) * MinutesPerDay + hour * 60 + minutes;
          var endSlotDate := slotDate + SlotMinutes;
          var isAvailable := !Blocked(turfBookings, slotDate, endSlotDate);
          assert slotDate == SlotStart(date, 2 * (hour - StartHour) + j);
          timeSlots := timeSlots + [TimeSlot(slotDate, endSlotDate, isAvailable)];
          j := j + 1;
        }
        hour := hour + 1;
      }
    }

    /** The venues, in store order, whose lower-cased name, address or
        description contains the lower-cased query. */
    function SearchVenues(query: string): (r: seq<Venue>)
      reads this
      ensures forall v :: v in r <==> v in venues && MatchesQuery(v, ToLower(query))
      ensures forall v :: multiset(r)[v] == if MatchesQuery(v, ToLower(query)) then multiset(venues)[v] else 0
      ensures Lists.IsSubseq(r, venues)
    {
      Lists.FilterExact(venues, (v: Venue) => MatchesQuery(v, ToLower(query)));
      Lists.Filter(venues, (v: Venue) => MatchesQuery(v, ToLower(query)))
    }
  }

  /** Searching for the empty string lists every venue, in store order. */
  lemma SearchEmptyListsAll(store: Store)
    ensures store.SearchVenues("") == store.venues
  {
    forall i | 0 <= i < |store.venues| ensures MatchesQuery(store.venues[i], ToLower("")) {
      ContainsEmpty(ToLower(store.venues[i].name));
    }
    Lists.FilterAll(store.venues, v => MatchesQuery(v, ToLower("")));
  }

  /** Confirming a booking that was not cancelled leaves every turf's slot
      list unchanged. */
  lemma ConfirmKeepsAvailability(bookings: seq<Booking>, i: nat, paymentId: string, turfId: string, date: Instant)
    requires i < |bookings| && bookings[i].status != Cancelled
    ensures AvailableSlots(bookings[i := bookings[i].(status := Confirmed, paymentId := Some(paymentId))], turfId, date)
         == AvailableSlots(bookings, turfId, date)
  {
    var b := bookings[i];
    var c := b.(status := Confirmed, paymentId := Some(paymentId));
    var after := bookings[i := c];
    var p := (x: Booking) => CountsFor(x, turfId, date);
    assert bookings == bookings[..i] + [b] + bookings[i + 1..];
    assert after == bookings[..i] + [c] + bookings[i + 1..];
    Lists.FilterAppend(bookings[..i] + [b], bookings[i + 1..], p);
    Lists.FilterAppend(bookings[..i], [b], p);
    Lists.FilterAppend(bookings[..i] + [c], bookings[i + 1..], p);
    Lists.FilterAppend(bookings[..i], [c], p);
    var slotsBefore := AvailableSlots(bookings, turfId, date);
    var slotsAfter := AvailableSlots(after, turfId, date);
    forall k | 0 <= k < SlotsPerDay ensures slotsAfter[k] == slotsBefore[k] {
      assert Conflicts(slotsBefore[k].startTime, slotsBefore[k].endTime, b)
          == Conflicts(slotsBefore[k].startTime, slotsBefore[k].endTime, c);
    }
  }
}
