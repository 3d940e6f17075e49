# Sports venue booking marketplace — a Dafny model of its logic

The application is a front end for booking sports turfs. Hosts list venues
and the turfs inside them. Players browse venues, open a turf, pick
half-hour slots on a day and start a booking. All data lives in an
in-memory mock store.

This project models the parts of the application that contain actual logic:

- **The data store** (`DataService`, from `src/services/dataService.ts`). The
  store is the class `Store`, with three sequences: `venues`, `turfs` and
  `bookings`. It has the id lookups and key filters, and the three create
  operations, which each append one record. `ConfirmBooking` updates the
  first booking with a given id, or fails with "Booking not found" and leaves
  the store unchanged. `SearchVenues` is the venue search with ASCII
  lower-casing. `DefaultAmenitiesForSport` is the table of default turf
  amenities.
- **Slot availability.** `AvailableSlots` specifies the slots and
  `Store.GetAvailableTimeSlots` computes them with the source's loops. A day
  has 28 half-hour slots from 08:00 to 22:00. A slot is unavailable when a
  booking that *counts* conflicts with it. A booking counts if it is for the
  same turf, is not cancelled, and *starts* on the same calendar day. The
  conflict test is the three-clause test of the source. Unavailable slots
  stay in the list.
- **Turf page** (`TurfDetail`): selecting and unselecting slots
  (only available ones can be clicked), the price of the selection, and the
  checks of "Book Now".
- **Turf form** (`AddTurf`) and **venue form** (`AddVenue`): field updates,
  the amenity and image lists, the amenity reset when the sport changes,
  the ordered submit checks and the payload sent to the store.
- **Venue list** (`VenueFilter`): search versus list-all, the sport
  check-box toggle, and the sport filter. The sport filter lets every venue
  through.
- **Route guard** (`App`): `ProtectedRoute` and the host dashboard route.

Modelling choices:

- An instant is a whole number of minutes on the local clock (type
  `Types.Instant`).
- The calendar day that `toDateString` compares is `DataService.DayOf(t) == t / 1440`.
  Euclidean division rounds down, so negative instants also get the right day.
- Slot `k` of a date starts at `DayOf(date) * 1440 + 480 + 30 * k`.
- Prices are integers. The total price of a selection is a `real`.
- React state (`useState` and its setters) is modelled as a class per page.
  The page's state variables are the class fields. Each handler is a method
  whose `ensures` gives the whole new state. The list rules themselves are
  functions in `Lists`, with lemmas about them.
- The same toggle rule is used by the turf page and by the sport filter, so
  it is defined once, as `Lists.Toggle`.
- Clock-driven values are method parameters. These are the generated ids
  (`venue_${Date.now()}` and the like) and the `createdAt` timestamps.
- The logged-in user and the route's `venueId` are parameters, because the
  authentication context is not part of this model.
- Every `async` call is treated as synchronous.

## Model

| member | source | states |
|---|---|---|
| `DataService.Conflicts` | src/services/dataService.ts:164-173 | when the slot and the booking are both non-empty intervals, the three-clause test holds exactly when the half-open intervals overlap on raw instants (slotStart < bookingEnd and bookingStart < slotEnd) |
| `DataService.AvailableSlots` | src/services/dataService.ts:137-184 | exactly 28 slots; the first starts at 08:00 of the date's day and the last ends at 22:00; each is 30 minutes long and ends where the next starts; a slot is unavailable exactly when some stored booking for the turf, not cancelled and starting on that day, conflicts with it; unavailable slots are kept |
| `DataService.Store.GetAvailableTimeSlots` | src/services/dataService.ts:137-184 | the hour loop (08..21) with its inner pass over minutes 0 and 30 builds exactly `AvailableSlots` of the current bookings |
| `DataService.IgnoredBookingIsIrrelevant` | src/services/dataService.ts:138-142 | inserting, anywhere in the store, a booking that is cancelled, for another turf or starting on another day leaves the slot list unchanged |
| `DataService.NoBookingsAllAvailable` | src/services/dataService.ts:164-173 | with no booking that counts, all 28 slots are available |
| `DataService.AddedBookingBlocksConflictingSlots` | src/services/dataService.ts:164-179 | appending a booking that counts makes exactly the slots it conflicts with unavailable; the other slots keep their previous availability |
| `DataService.MidnightSpanningBookingIgnored` | src/services/dataService.ts:140 | a booking from 23:00 of the previous day to 10:00 conflicts with the 08:00 slot, yet leaves every slot of the day available, because only its start date is compared |
| `DataService.ExampleHourBooking` | src/services/dataService.ts:145-179 | one confirmed 09:00–10:00 booking makes the 09:00 and 09:30 slots unavailable and the other 26 available |
| `DataService.ExampleCancelledBooking` | src/services/dataService.ts:141 | the same booking, cancelled, leaves all 28 slots available |
| `DataService.ExampleUnalignedBooking` | src/services/dataService.ts:168-172 | a 09:15–09:45 booking makes both the 09:00 and the 09:30 slot unavailable and no others |
| `DataService.DefaultAmenitiesForSport` | src/services/dataService.ts:197-213 | Other has no defaults, every other sport has exactly three, none empty and none repeated |
| `DataService.Store.constructor` | src/services/dataService.ts:5-59 | the store starts with the two seeded venues, the three seeded turfs and no bookings |
| `DataService.Store.GetVenueById` | src/services/dataService.ts:66-69 | the first venue with the id, or none exactly when no venue has it |
| `DataService.Store.GetVenuesByHost` | src/services/dataService.ts:71-73 | exactly the venues of the host, each as often as stored, in store order |
| `DataService.Store.CreateVenue` | src/services/dataService.ts:75-83 | appends one venue made of the draft plus the given id and timestamp; earlier venues, turfs and bookings are unchanged |
| `DataService.Store.GetTurfsByVenue` | src/services/dataService.ts:86-88 | exactly the turfs of the venue, each as often as stored, in store order |
| `DataService.Store.GetTurfById` | src/services/dataService.ts:90-93 | the first turf with the id, or none exactly when no turf has it |
| `DataService.Store.CreateTurf` | src/services/dataService.ts:95-103 | appends one turf made of the draft plus the given id and timestamp; nothing else changes |
| `DataService.Store.GetBookingsByTurf` | src/services/dataService.ts:106-108 | exactly the bookings of the turf, each as often as stored, in store order |
| `DataService.Store.GetBookingsByUser` | src/services/dataService.ts:110-112 | exactly the bookings of the user, each as often as stored, in store order |
| `DataService.Store.CreateBooking` | src/services/dataService.ts:114-123 | appends one booking with status Pending, the draft's fields, the given id and timestamp; nothing else changes |
| `DataService.Store.ConfirmBooking` | src/services/dataService.ts:125-135 | fails with "Booking not found" exactly when no booking has the id, and then changes nothing; otherwise the first booking with the id gets status Confirmed and the payment id, is returned, and no other record changes |
| `DataService.ConfirmKeepsAvailability` | src/services/dataService.ts:125-142 | confirming a booking that was not cancelled leaves every turf's slot list unchanged |
| `DataService.Store.SearchVenues` | src/services/dataService.ts:187-194 | exactly the venues, in store order and each as often as stored, whose lower-cased name, address or (present, non-empty) description contains the lower-cased query |
| `DataService.SearchEmptyListsAll` | src/services/dataService.ts:187-194 | searching for the empty string returns the whole venue list |
| `Text.ToLower` | src/services/dataService.ts:188-192 | same length; each upper-case ASCII letter becomes its lower-case letter (code + 32), so none is left; every other character is kept |
| `TurfDetail.TurfDetailPage.constructor` | src/pages/TurfDetail.tsx:24 | the selection starts empty |
| `TurfDetail.TurfDetailPage.HandleTimeSlotSelection` | src/pages/TurfDetail.tsx:44-52 | the selection becomes its toggle by the start time and stays free of duplicates |
| `Lists.Toggle` | src/pages/TurfDetail.tsx:44-51 | the toggled value is in the result exactly when it was not in the list; other values keep their membership; an absent value is appended at the end; a present one is removed everywhere, with the order and counts of the rest kept |
| `Lists.ToggleNoDup` | src/pages/TurfDetail.tsx:44-51 | toggling keeps a duplicate-free list duplicate-free |
| `TurfDetail.ClicksKeepNoDup` | src/pages/TurfDetail.tsx:196-209 | any run of slot clicks from a duplicate-free (for example empty) selection keeps it duplicate-free |
| `TurfDetail.Click` | src/pages/TurfDetail.tsx:203-204 | a click on an unavailable slot changes nothing; a click on an available slot toggles its start time (see `Lists.Toggle`); after a click every selected time was selected before or is the start of the clicked available slot |
| `TurfDetail.TurfDetailPage.ClickSlot` | src/pages/TurfDetail.tsx:203-204 | the slot button's click applies `Click`, keeping the selection duplicate-free |
| `TurfDetail.OnlyAvailableSlotsSelected` | src/pages/TurfDetail.tsx:191-209 | after any run of clicks, every selected start time was already selected or is the start of an available slot that was clicked |
| `TurfDetail.TurfDetailPage.CalculateTotalPrice` | src/pages/TurfDetail.tsx:54-57 | 0 while the turf is absent; otherwise twice the total equals the number of selected slots times the hourly price |
| `TurfDetail.TurfDetailPage.HandleBooking` | src/pages/TurfDetail.tsx:59-72 | no user gives the login error whatever the selection; a user with an empty selection gives "select at least one time slot"; a user with a selection initiates the booking |
| `Lists.ToggleTwice` | src/pages/VenueFilter.tsx:30-36 | toggling an absent value twice restores the list |
| `Lists.ToggleAllNoDup` | src/pages/VenueFilter.tsx:30-36 | any run of toggles from a duplicate-free (for example empty) list keeps it duplicate-free |
| `VenueFilter.VenueFilterPage.constructor` | src/pages/VenueFilter.tsx:17-18 | empty query, no sport selected |
| `VenueFilter.VenueFilterPage.SetSearchQuery` | src/pages/VenueFilter.tsx:98 | sets the query, nothing else |
| `VenueFilter.VenueFilterPage.HandleSportFilter` | src/pages/VenueFilter.tsx:30-36 | the selected sports become their toggle by the sport and never hold a sport twice |
| `VenueFilter.FetchVenues` | src/pages/VenueFilter.tsx:20-23 | exactly the stored venues matching the lower-cased query, each as often as stored and in store order; for the empty query, all venues |
| `VenueFilter.FilteredVenues` | src/pages/VenueFilter.tsx:38-44 | the fetched list, unchanged, whatever sports are selected |
| `AddTurf.AddTurfForm.constructor` | src/pages/host/AddTurf.tsx:25-49 | empty name and description, Football, price 1000, no images, the Football default amenities, empty inputs |
| `AddTurf.AddTurfForm.HandleChange` | src/pages/host/AddTurf.tsx:51-54 | sets the named text field only |
| `AddTurf.AddTurfForm.HandleNumberChange` | src/pages/host/AddTurf.tsx:65-69 | sets the price only |
| `AddTurf.AddTurfForm.HandleSportTypeChange` | src/pages/host/AddTurf.tsx:56-63 | sets the sport and replaces the amenities by that sport's defaults, dropping custom ones; the rest of the form is unchanged |
| `AddTurf.AddTurfForm.SetCustomAmenity` | src/pages/host/AddTurf.tsx:293 | sets the pending amenity only |
| `AddTurf.AddTurfForm.SetTempImage` | src/pages/host/AddTurf.tsx:317 | sets the pending image URL only |
| `AddTurf.AddDistinct` | src/pages/host/AddTurf.tsx:71-96 | a non-empty new item is appended; an empty or already listed one leaves the list unchanged; duplicate-freedom is kept |
| `AddTurf.AddTurfForm.HandleAddAmenity` | src/pages/host/AddTurf.tsx:71-79 | the amenities become `AddDistinct` of the pending amenity; the input is cleared only when it was accepted; no other field changes |
| `AddTurf.AddTurfForm.HandleRemoveAmenity` | src/pages/host/AddTurf.tsx:81-86 | every occurrence of the amenity is removed, the rest kept in order; no other field changes |
| `Lists.RemoveAll` | src/pages/host/AddTurf.tsx:84 | the value is gone; every other value keeps its membership and count; the result is a subsequence; an absent value changes nothing; duplicate-freedom is kept |
| `Lists.RemoveAllAppend` | src/pages/host/AddTurf.tsx:84 | removal distributes over concatenation, so the order of the rest is kept |
| `AddTurf.AddTurfForm.HandleAddImage` | src/pages/host/AddTurf.tsx:88-96 | the images become `AddDistinct` of the pending URL; the input is cleared only when it was accepted |
| `AddTurf.AddTurfForm.HandleRemoveImage` | src/pages/host/AddTurf.tsx:98-103 | the images become `RemoveAt` of the index; no other field changes |
| `Lists.RemoveAt` | src/pages/host/AddTurf.tsx:98-103 | for an index in range, exactly the element at that index is removed; for any other index the list is unchanged |
| `Lists.RemoveAtNoDup` | src/pages/host/AddTurf.tsx:98-103 | removing one position keeps a duplicate-free list duplicate-free |
| `AddTurf.AmenityEditsKeepNoDup` | src/pages/host/AddTurf.tsx:56-86 | any run of amenity additions, removals and sport changes keeps a duplicate-free amenity list duplicate-free |
| `AddTurf.DefaultAmenityEditsKeepNoDup` | src/pages/host/AddTurf.tsx:45-86 | starting from any sport's defaults, the amenity list never holds a duplicate |
| `AddTurf.ValidateSubmission` | src/pages/host/AddTurf.tsx:105-144 | checks logged in, host, venue id present, name non-empty, price > 0 in that order, the first failure being the result; it succeeds exactly when all pass, with a draft that copies the form and the venue id and whose images are absent exactly when the list is empty |
| `AddTurf.AddTurfForm.HandleSubmit` | src/pages/host/AddTurf.tsx:105-154 | a failed check leaves the store unchanged and reports its error; otherwise exactly one turf built from the draft is appended to the store |
| `AddVenue.AddVenueForm.constructor` | src/pages/host/AddVenue.tsx:20-31 | all fields and the pending URL empty |
| `AddVenue.AddVenueForm.HandleChange` | src/pages/host/AddVenue.tsx:33-36 | sets the named text field only |
| `AddVenue.AddVenueForm.SetTempImage` | src/pages/host/AddVenue.tsx:179 | sets the pending image URL only |
| `AddVenue.AppendNonEmpty` | src/pages/host/AddVenue.tsx:38-46 | an empty URL leaves the list unchanged; a non-empty one is appended at the end, even when already present |
| `AddVenue.DuplicateImagesKept` | src/pages/host/AddVenue.tsx:38-46 | adding the same URL twice gives a list holding it twice |
| `AddVenue.AddVenueForm.HandleAddImage` | src/pages/host/AddVenue.tsx:38-46 | the images become `AppendNonEmpty` of the pending URL, and the input is empty afterwards |
| `AddVenue.AddVenueForm.HandleRemoveImage` | src/pages/host/AddVenue.tsx:48-53 | the images become `RemoveAt` of the index |
| `AddVenue.ValidateSubmission` | src/pages/host/AddVenue.tsx:55-83 | checks user present, host, name and address non-empty in that order, the first failure being the result; it succeeds exactly when all pass, with host id = the user's id and images absent exactly when the list is empty |
| `AddVenue.AddVenueForm.HandleSubmit` | src/pages/host/AddVenue.tsx:55-94 | a failed check leaves the store unchanged; otherwise exactly one venue built from the draft is appended |
| `App.ProtectedRoute` | src/App.tsx:20-47 | loading wins over everything; /login exactly when a login is required and there is no user; / exactly when a host is required, the user is missing or not a host, and the login rule did not fire (so a host-only route without a login requirement sends a missing user to /); the content is shown exactly when both requirements are met |
| `App.DefaultFlagsNeedLoginOnly` | src/App.tsx:22-23 | with the default flags (login required, host not required) a missing user goes to /login and any user sees the content |
| `App.HostDashboardRoute` | src/App.tsx:68-75 | no user goes to /login, a non-host to /, a host sees the dashboard |

## Left out

- Date strings. The model does not parse them or format them with `toISOString`. It does
  not model time zones or daylight-saving time either. Instants are local minutes, and
  `DayOf` stands for `toDateString`. On a day with a DST change, the source's
  `setHours` slots can differ from the model's.
- Generated ids and `createdAt` timestamps come from the clock. They are parameters.
  Nothing forces an id to be fresh, and the source does not check that either.
- The stored records are values. In the source, `confirmBooking` changes the booking
  object in place, and the caller of an earlier `createBooking` sees that change
  through its reference. The model does not capture this aliasing.
- Prices are integers. `pricePerHour / 2` is computed exactly, without JavaScript
  floating-point rounding.
- `Text.ToLower` lowers ASCII letters only. Unicode case mapping is not modelled.
- `AddTurf.AddTurfForm.HandleNumberChange` takes the number already parsed. The
  `Number(value) || 0` parsing is not modelled.
- The `isLoading` flags of the forms are not modelled. Neither are the `try`/`catch`
  around the create calls, which never throw in the mock store, or the navigation after
  a successful submit.
- The toast messages are represented by the error constructors. Each constructor's
  comment gives the message text.
- `getAllVenues` is the store's `venues` field, read directly by
  `VenueFilter.FetchVenues`.
- The turf page's date picker is not modelled. So are the React Query fetching, the
  loading states and the "not found" pages of the turf page. The selection is kept
  when the date changes, both in the source and in this model's reading of it
  (`handleTimeSlotSelection` is the only update).
- The authentication context is not part of this model. The logged-in user and the
  loading flag are inputs.
- These files are rendering only and are not modelled: `src/components/Navbar.tsx`,
  `Footer.tsx`, `TurfCard.tsx` and `VenueCard.tsx`, plus `src/pages/Index.tsx`,
  `VenueDetail.tsx`, `Register.tsx` and `host/HostDashboard.tsx`.
- `src/types/index.ts` has declarations only. It is mirrored in module `Types`.
