/** The records of the booking marketplace, and the shapes the create
    operations take (the record without the fields the store fills in).

    Strings stay strings; instants are whole minutes on the local clock
    (see `DataService.DayOf` for the calendar-day key); prices are whole
    currency units. */
module Types {
  import opened Wrappers

  type Instant = int

  datatype User = User(id: string, email: string, name: string, isHost: bool)

  datatype SportType = Football | Cricket | Basketball | Tennis | Badminton | Volleyball | Other

  datatype BookingStatus = Pending | Confirmed | Cancelled | Completed

  datatype Venue = Venue(
    id: string,
    name: string,
    address: string,
    description: Option<string>,
    images: Option<seq<string>>,
    googleMapsLink: Option<string>,
    hostId: string,
    createdAt: string)

  datatype Turf = Turf(
    id: string,
    name: string,
    venueId: string,
    pricePerHour: int,
    sportType: SportType,
    images: Option<seq<string>>,
    description: Option<string>,
    amenities: seq<string>,
    createdAt: string)

  datatype Booking = Booking(
    id: string,
    turfId: string,
    userId: string,
    startTime: Instant,
    endTime: Instant,
    totalPrice: int,
    status: BookingStatus,
    paymentId: Option<string>,
    createdAt: string)

  datatype TimeSlot = TimeSlot(startTime: Instant, endTime: Instant, isAvailable: bool)

  /** `Omit<Venue, 'id' | 'createdAt'>` */
  datatype VenueDraft = VenueDraft(
    name: string,
    address: string,
    description: Option<string>,
    images: Option<seq<string>>,
    googleMapsLink: Option<string>,
    hostId: string)

  /** `Omit<Turf, 'id' | 'createdAt'>` */
  datatype TurfDraft = TurfDraft(
    name: string,
    venueId: string,
    pricePerHour: int,
    sportType: SportType,
    images: Option<seq<string>>,
    description: Option<string>,
    amenities: seq<string>)

  /** `Omit<Booking, 'id' | 'status' | 'createdAt'>` */
  datatype BookingDraft = BookingDraft(
    turfId: string,
    userId: string,
    startTime: Instant,
    endTime: Instant,
    totalPrice: int,
    paymentId: Option<string>)
}
