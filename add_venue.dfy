/** The host's form for adding a venue: its fields, the image list with its
    add and remove buttons, and the checks made on submit. */
module AddVenue {
  import opened Wrappers
  import opened Types
  import Lists
  import DataService

  datatype VenueFormData = VenueFormData(
    name: string,
    address: string,
    description: string,
    googleMapsLink: string,
    images: seq<string>)

  /** The text inputs bound to `handleChange`. */
  datatype TextField = Name | Address | Description | GoogleMapsLink

  /** The reasons a submit is refused, in the order they are checked. */
  datatype VenueFormError =
    | NotLoggedIn            // "You must be logged in to create a venue"
    | NotHost                // "Only hosts can create venues"
    | MissingNameOrAddress   // "Venue name and address are required"

  /** The add rule of the image list: any non-empty URL is appended, even one
      already in the list; the empty URL changes nothing. */
  function AppendNonEmpty(images: seq<string>, url: string): (r: seq<string>)
    ensures url == "" ==> r == images
    ensures url != "" ==> |r| == |images| + 1 && r[..|images|] == images && r[|images|] == url
  {
    if url != "" then images + [url] else images
  }

  /** The image list does not refuse duplicates. */
  lemma DuplicateImagesKept(url: string)
    requires url != ""
    ensures AppendNonEmpty(AppendNonEmpty([], url), url) == [url, url]
  {
  }

  /** The checks of a submit, in order (logged in, host, name and address),
      and the venue draft sent to the store when all pass. */
  function ValidateSubmission(user: Option<User>, form: VenueFormData): (r: Result<VenueDraft, VenueFormError>)
    ensures user.None? ==> r == Failure(NotLoggedIn)
    ensures user.Some? && !user.value.isHost ==> r == Failure(NotHost)
    ensures (user.Some? && user.value.isHost && (form.name == "" || form.address == "")) ==>
              r == Failure(MissingNameOrAddress)
    ensures r.Success? <==> user.Some? && user.value.isHost && form.name != "" && form.address != ""
    ensures r.Success? ==>
              && r.value.hostId == user.value.id
              && r.value.name == form.name && r.value.address == form.address
              && r.value.description == Some(form.description)
              && r.value.googleMapsLink == Some(form.googleMapsLink)
              && (r.value.images.None? <==> form.images == [])
              && (r.value.images.Some? ==> r.value.images.value == form.images)
  {
    if user.None? then Failure(NotLoggedIn)
    else if !user.value.isHost then Failure(NotHost)
    else if form.name == "" || form.address == "" then Failure(MissingNameOrAddress)
    else Success(VenueDraft(form.name, form.address, Some(form.description),
                            if |form.images| > 0 then Some(form.images) else None,
                            Some(form.googleMapsLink), user.value.id))
  }

  /** The form's state: its fields and the pending image URL. */
  class AddVenueForm {
    var formData: VenueFormData
    var tempImage: string

    constructor ()
      ensures formData == VenueFormData("", "", "", "", []) && tempImage == ""
    {
      formData := VenueFormData("", "", "", "", []);
      tempImage := "";
    }

    method HandleChange(field: TextField, value: string)
      modifies this
      ensures formData == match field
                          case Name => old(formData).(name := value)
                          case Address => old(formData).(address := value)
                          case Description => old(formData).(description := value)
                          case GoogleMapsLink => old(formData).(googleMapsLink := value)
      ensures tempImage == old(tempImage)
    {
      match field
      case Name => formData := formData.(name := value);
      case Address => formData := formData.(address := value);
      case Description => formData := formData.(description := value);
      case GoogleMapsLink => formData := formData.(googleMapsLink := value);
    }

    method SetTempImage(value: string)
      modifies this
      ensures formData == old(formData) && tempImage == value
    {
      tempImage := value;
    }

    /** Appends the pending URL when it is non-empty and then clears the
        input; an empty URL changes nothing. */
    method HandleAddImage()
      modifies this
      ensures formData == old(formData).(images := AppendNonEmpty(old(formData.images), old(tempImage)))
      ensures tempImage == ""
    {
      if tempImage != "" {
        formData := formData.(images := AppendNonEmpty(formData.images, tempImage));
        tempImage := "";
      }
    }

    /** Removes the image at the position, if there is one. */
    method HandleRemoveImage(index: int)
      modifies this
      ensures formData == old(formData).(images := Lists.RemoveAt(old(formData.images), index))
      ensures tempImage == old(tempImage)
    {
      formData := formData.(images := Lists.RemoveAt(formData.images, index));
    }

    /** Runs the checks; when they pass, creates the venue in the store with
        the user as its host. When one fails, the store is left as it was. */
    method HandleSubmit(store: DataService.Store, user: Option<User>, id: string, createdAt: string)
      returns (outcome: Result<Venue, VenueFormError>)
      modifies store
      ensures match ValidateSubmission(user, formData)
              case Failure(e) => outcome == Failure(e) && store.venues == old(store.venues)
              case Success(d) =>
                outcome == Success(Venue(id, d.name, d.address, d.description, d.images,
                                         d.googleMapsLink, d.hostId, createdAt)) &&
                store.venues == old(store.venues) + [outcome.value]
      ensures store.turfs == old(store.turfs) && store.bookings == old(store.bookings)
    {
      var checked := ValidateSubmission(user, formData);
      if checked.Failure? {
        return Failure(checked.error);
      }
      var newVenue := store.CreateVenue(checked.value, id, createdAt);
      outcome := Success(newVenue);
    }
  }
}
