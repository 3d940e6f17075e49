/** The host's form for adding a turf to a venue: its fields, the amenity
    and image lists with their add and remove buttons, the reset of the
    amenities when the sport changes, and the checks made on submit. */
module AddTurf {
  import opened Wrappers
  import opened Types
  import Lists
  import DataService

  datatype TurfFormData = TurfFormData(
    name: string,
    sportType: SportType,
    pricePerHour: int,
    description: string,
    images: seq<string>,
    amenities: seq<string>)

  /** The text inputs bound to `handleChange`. */
  datatype TextField = Name | Description

  /** The reasons a submit is refused, in the order they are checked. */
  datatype TurfFormError =
    | NotLoggedIn        // "You must be logged in to create a turf"
    | NotHost            // "Only hosts can create turfs"
    | MissingVenueId     // "Venue ID is required"
    | MissingName        // "Turf name is required"
    | NonPositivePrice   // "Price per hour must be greater than 0"

  /** The add rule of the amenity and image lists: a non-empty item that is
      not yet in the list is appended; anything else leaves the list as it is. */
  function AddDistinct(items: seq<string>, item: string): (r: seq<string>)
    ensures item != "" && item !in items ==> r == items + [item]
    ensures item == "" || item in items ==> r == items
    ensures Lists.NoDup(items) ==> Lists.NoDup(r)
  {
    if item != "" && item !in items then
      Lists.SnocNoDup(items, item); items + [item]
    else items
  }

  /** One change to the amenity list a host can make. */
  datatype AmenityEdit = AddAmenity(amenity: string) | RemoveAmenity(amenity: string) | ChangeSport(sport: SportType)

  function ApplyAmenityEdit(amenities: seq<string>, edit: AmenityEdit): seq<string> {
    match edit
    case AddAmenity(a) => AddDistinct(amenities, a)
    case RemoveAmenity(a) => Lists.RemoveAll(amenities, a)
    case ChangeSport(s) => DataService.DefaultAmenitiesForSport(s)
  }

  function ApplyAmenityEdits(amenities: seq<string>, edits: seq<AmenityEdit>): seq<string>
    decreases |edits|
  {
    if edits == [] then amenities else ApplyAmenityEdits(ApplyAmenityEdit(amenities, edits[0]), edits[1..])
  }

  /** Starting from the default amenities of a sport, any run of additions,
      removals and sport changes leaves the amenity list without duplicates. */
  lemma {:induction false} AmenityEditsKeepNoDup(amenities: seq<string>, edits: seq<AmenityEdit>)
    requires Lists.NoDup(amenities)
    ensures Lists.NoDup(ApplyAmenityEdits(amenities, edits))
    decreases |edits|
  {
    if edits != [] {
      var next := ApplyAmenityEdit(amenities, edits[0]);
      match edits[0] {
        case AddAmenity(a) =>
        case RemoveAmenity(a) =>
        case ChangeSport(s) =>
      }
      AmenityEditsKeepNoDup(next, edits[1..]);
    }
  }

  /** The default amenities of any sport, then any run of edits. */
  lemma DefaultAmenityEditsKeepNoDup(sport: SportType, edits: seq<AmenityEdit>)
    ensures Lists.NoDup(ApplyAmenityEdits(DataService.DefaultAmenitiesForSport(sport), edits))
  {
    AmenityEditsKeepNoDup(DataService.DefaultAmenitiesForSport(sport), edits);
  }

  /** The checks of a submit, in order (logged in, host, venue id, name,
      price), and the turf draft sent to the store when all pass. */
  function ValidateSubmission(user: Option<User>, venueId: Option<string>, form: TurfFormData): (r: Result<TurfDraft, TurfFormError>)
    ensures user.None? ==> r == Failure(NotLoggedIn)
    ensures user.Some? && !user.value.isHost ==> r == Failure(NotHost)
    ensures user.Some? && user.value.isHost && (venueId.None? || venueId.value == "") ==> r == Failure(MissingVenueId)
    ensures (user.Some? && user.value.isHost && venueId.Some? && venueId.value != "" && form.name == "") ==>
              r == Failure(MissingName)
    ensures (user.Some? && user.value.isHost && venueId.Some? && venueId.value != "" && form.name != "" &&
             form.pricePerHour <= 0) ==> r == Failure(NonPositivePrice)
    ensures r.Success? <==> user.Some? && user.value.isHost && venueId.Some? && venueId.value != "" &&
                            form.name != "" && form.pricePerHour > 0
    ensures r.Success? ==>
              && r.value.venueId == venueId.value
              && r.value.name == form.name && r.value.pricePerHour == form.pricePerHour
              && r.value.sportType == form.sportType && r.value.description == Some(form.description)
              && r.value.amenities == form.amenities
              && (r.value.images.None? <==> form.images == [])
              && (r.value.images.Some? ==> r.value.images.value == form.images)
  {
    if user.None? then Failure(NotLoggedIn)
    else if !user.value.isHost then Failure(NotHost)
    else if venueId.None? || venueId.value == "" then Failure(MissingVenueId)
    else if form.name == "" then Failure(MissingName)
    else if form.pricePerHour <= 0 then Failure(NonPositivePrice)
    else Success(TurfDraft(form.name, venueId.value, form.pricePerHour, form.sportType,
                           if |form.images| > 0 then Some(form.images) else None,
                           Some(form.description), form.amenities))
  }

  /** The form's state: its fields and the two pending text inputs. */
  class AddTurfForm {
    var formData: TurfFormData
    var customAmenity: string
    var tempImage: string

    /** Neither list ever holds an entry twice. */
    ghost predicate Valid()
      reads this
    {
      Lists.NoDup(formData.amenities) && Lists.NoDup(formData.images)
    }

    /** The form as first shown, after the mount effect has set the amenities
        to the defaults of the initial sport. */
    constructor ()
      ensures Valid()
      ensures formData == TurfFormData("", Football, 1000, "", [], DataService.DefaultAmenitiesForSport(Football))
      ensures customAmenity == "" && tempImage == ""
    {
      formData := TurfFormData("", Football, 1000, "", [], DataService.DefaultAmenitiesForSport(Football));
      customAmenity := "";
      tempImage := "";
    }

    method HandleChange(field: TextField, value: string)
      requires Valid()
      modifies this
      ensures Valid()
      ensures formData == match field
                          case Name => old(formData).(name := value)
                          case Description => old(formData).(description := value)
      ensures customAmenity == old(customAmenity) && tempImage == old(tempImage)
    {
      match field
      case Name => formData := formData.(name := value);
      case Description => formData := formData.(description := value);
    }

    /** The price input, given the number it parsed to. */
    method HandleNumberChange(value: int)
      requires Valid()
      modifies this
      ensures Valid()
      ensures formData == old(formData).(pricePerHour := value)
      ensures customAmenity == old(customAmenity) && tempImage == old(tempImage)
    {
      formData := formData.(pricePerHour := value);
    }

    /** Sets the sport and replaces the amenities by that sport's defaults,
        dropping any custom ones. */
    method HandleSportTypeChange(sportType: SportType)
      requires Valid()
      modifies this
      ensures Valid()
      ensures formData == old(formData).(sportType := sportType,
                                         amenities := DataService.DefaultAmenitiesForSport(sportType))
      ensures customAmenity == old(customAmenity) && tempImage == old(tempImage)
    {
      formData := formData.(sportType := sportType, amenities := DataService.DefaultAmenitiesForSport(sportType));
    }

    method SetCustomAmenity(value: string)
      modifies this
      ensures formData == old(formData) && customAmenity == value && tempImage == old(tempImage)
    {
      customAmenity := value;
    }

    method SetTempImage(value: string)
      modifies this
      ensures formData == old(formData) && customAmenity == old(customAmenity) && tempImage == value
    {
      tempImage := value;
    }

    /** Appends the pending amenity when it is non-empty and new, and then
        clears the input; otherwise changes nothing. */
    method HandleAddAmenity()
      requires Valid()
      modifies this
      ensures Valid()
      ensures formData == old(formData).(amenities := AddDistinct(old(formData.amenities), old(customAmenity)))
      ensures customAmenity == if old(customAmenity) != "" && old(customAmenity) !in old(formData.amenities)
                               then "" else old(customAmenity)
      ensures tempImage == old(tempImage)
    {
      if customAmenity != "" && customAmenity !in formData.amenities {
        formData := formData.(amenities := AddDistinct(formData.amenities, customAmenity));
        customAmenity := "";
      }
    }

    /** Removes every occurrence of the amenity, keeping the order of the rest. */
    method HandleRemoveAmenity(amenity: string)
      requires Valid()
      modifies this
      ensures Valid()
      ensures formData == old(formData).(amenities := Lists.RemoveAll(old(formData.amenities), amenity))
      ensures customAmenity == old(customAmenity) && tempImage == old(tempImage)
    {
      formData := formData.(amenities := Lists.RemoveAll(formData.amenities, amenity));
    }

    /** Appends the pending image URL when it is non-empty and new, and then
        clears the input; otherwise changes nothing. */
    method HandleAddImage()
      requires Valid()
      modifies this
      ensures Valid()
      ensures formData == old(formData).(images := AddDistinct(old(formData.images), old(tempImage)))
      ensures tempImage == if old(tempImage) != "" && old(tempImage) !in old(formData.images)
                           then "" else old(tempImage)
      ensures customAmenity == old(customAmenity)
    {
      if tempImage != "" && tempImage !in formData.images {
        formData := formData.(images := AddDistinct(formData.images, tempImage));
        tempImage := "";
      }
    }

    /** Removes the image at the position, if there is one. */
    method HandleRemoveImage(index: int)
      requires Valid()
      modifies this
      ensures Valid()
      ensures formData == old(formData).(images := Lists.RemoveAt(old(formData.images), index))
      ensures customAmenity == old(customAmenity) && tempImage == old(tempImage)
    {
      Lists.RemoveAtNoDup(formData.images, index);
      formData := formData.(images := Lists.RemoveAt(formData.images, index));
    }

    /** Runs the checks; when they pass, creates the turf in the store. When
        one fails, the store is left as it was. `id` and `createdAt` stand
        for the store's clock readings. */
    method HandleSubmit(store: DataService.Store, user: Option<User>, venueId: Option<string>,
                        id: string, createdAt: string) returns (outcome: Result<Turf, TurfFormError>)
      modifies store
      ensures match ValidateSubmission(user, venueId, formData)
              case Failure(e) => outcome == Failure(e) && store.turfs == old(store.turfs)
              case Success(d) =>
                outcome == Success(Turf(id, d.name, d.venueId, d.pricePerHour, d.sportType, d.images,
                                        d.description, d.amenities, createdAt)) &&
                store.turfs == old(store.turfs) + [outcome.value]
      ensures store.venues == old(store.venues) && store.bookings == old(store.bookings)
    {
      var checked := ValidateSubmission(user, venueId, formData);
      if checked.Failure? {
        return Failure(checked.error);
      }
      var newTurf := store.CreateTurf(checked.value, id, createdAt);
      outcome := Success(newTurf);
    }
  }
}
