/** The destination card: which picture it shows, which features and price
    it lists, and when it opens the booking form. */
module DestinationCard {
  import opened Base
  import opened Js
  import opened Lists
  import BookingForm

  /** The card's fallback pictures are eight fixed images, known here by
      their position. */
  const FallbackCount := 8
  const MaxFeatures := 3
  const DefaultPrice := 129900

  datatype CardDestination = CardDestination(
    id: nat, name: Option<string>,
    imageUrl: Option<string>, image: Option<string>, mainImageUrl: Option<string>,
    features: Option<seq<string>>, pricePerPerson: Numeric, price: Numeric)

  /** `getFallbackImage`'s index: the key when it is truthy, else the name's
      length, else 0. */
  function FallbackIndex(d: CardDestination): (r: nat)
    ensures r < FallbackCount
    ensures d.id != 0 ==> r == d.id % FallbackCount
    ensures d.id == 0 && d.name.Some? && d.name.value != "" ==> r == |d.name.value| % FallbackCount
    ensures d.id == 0 && (d.name.None? || d.name.value == "") ==> r == 0
  {
    if d.id != 0 then d.id % FallbackCount
    else if d.name.Some? && d.name.value != "" then |d.name.value| % FallbackCount
    else 0
  }

  /** A picture: an address from the destination, or one of the fallbacks. */
  datatype Picture = Address(url: string) | FallbackPicture(index: nat)

  /** A text field that is present and non-empty. */
  predicate Filled(s: Option<string>)
  {
    s.Some? && s.value != ""
  }

  /** The `src` of the image: the fallback once loading failed, otherwise the
      first truthy of `image_url`, `image` and `main_image_url`. */
  function PictureOf(d: CardDestination, imageError: bool): (r: Picture)
    ensures imageError ==> r == FallbackPicture(FallbackIndex(d))
    ensures !imageError && Filled(d.imageUrl) ==> r == Address(d.imageUrl.value)
    ensures !imageError && !Filled(d.imageUrl) && Filled(d.image) ==> r == Address(d.image.value)
    ensures !imageError && !Filled(d.imageUrl) && !Filled(d.image) && Filled(d.mainImageUrl) ==>
      r == Address(d.mainImageUrl.value)
    ensures r.Address? ==> r.url != ""
    ensures r.FallbackPicture? ==> r.index < FallbackCount
  {
    if imageError then FallbackPicture(FallbackIndex(d))
    else if Filled(d.imageUrl) then Address(d.imageUrl.value)
    else if Filled(d.image) then Address(d.image.value)
    else if Filled(d.mainImageUrl) then Address(d.mainImageUrl.value)
    else FallbackPicture(FallbackIndex(d))
  }

  /** `(destination.features || []).slice(0, 3)`. */
  function DisplayFeatures(d: CardDestination): (r: seq<string>)
    ensures |r| <= MaxFeatures
    ensures d.features.None? ==> r == []
    ensures d.features.Some? ==> |r| <= |d.features.value| && r == d.features.value[..|r|]
    ensures d.features.Some? && |d.features.value| >= MaxFeatures ==> |r| == MaxFeatures
  {
    if d.features.Some? then Take(d.features.value, MaxFeatures) else []
  }

  /** The price shown: `price_per_person || price || 1299`, in cents. */
  function DisplayPrice(d: CardDestination): int
  {
    ValueOrZero(Or(d.pricePerPerson, Or(d.price, Number(DefaultPrice))))
  }

  /** The card advertises the unit price the booking form charges. */
  lemma DisplayPriceIsUnitPrice(d: CardDestination)
    ensures DisplayPrice(d) == BookingForm.UnitPrice(BookingForm.DestinationRef(d.id, d.pricePerPerson, d.price))
    ensures !Truthy(d.pricePerPerson) && !Truthy(d.price) ==> DisplayPrice(d) == DefaultPrice
  {
  }

  class Card {
    const destination: CardDestination
    var imageLoaded: bool
    var imageError: bool
    var showBookingForm: bool

    constructor (destination: CardDestination)
      ensures this.destination == destination
      ensures !imageLoaded && !imageError && !showBookingForm
    {
      this.destination := destination;
      imageLoaded := false;
      imageError := false;
      showBookingForm := false;
    }

    /** The picture on screen. */
    function Src(): Picture
      reads this
    {
      PictureOf(destination, imageError)
    }

    method HandleImageLoad()
      modifies this
      ensures imageLoaded && imageError == old(imageError) && showBookingForm == old(showBookingForm)
    {
      imageLoaded := true;
    }

    /** A failed load switches to the fallback, whatever addresses the
      destination has, and stops the placeholder. */
    method HandleImageError()
      modifies this
      ensures imageLoaded && imageError && showBookingForm == old(showBookingForm)
      ensures Src() == FallbackPicture(FallbackIndex(destination))
    {
      imageError := true;
      imageLoaded := true;
    }

    /** `handleBookNow`: the form opens only for a signed-in user; otherwise
      an alert is shown and nothing changes. */
    method HandleBookNow(signedIn: bool) returns (alerted: bool)
      modifies this
      ensures alerted <==> !signedIn
      ensures showBookingForm == (old(showBookingForm) || signedIn)
      ensures imageLoaded == old(imageLoaded) && imageError == old(imageError)
    {
      if !signedIn {
        return true;
      }
      showBookingForm := true;
      alerted := false;
    }

    /** Closing the form, or a booking made through it, hides it. */
    method CloseBookingForm()
      modifies this
      ensures !showBookingForm && imageLoaded == old(imageLoaded) && imageError == old(imageError)
    {
      showBookingForm := false;
    }

    /** `handleLike`: the key is passed to the parent's handler, when there
      is one. */
    method HandleLike(hasHandler: bool) returns (toggled: Option<nat>)
      ensures toggled.Some? <==> hasHandler
      ensures toggled.Some? ==> toggled.value == destination.id
    {
      toggled := if hasHandler then Some(destination.id) else None;
    }
  }
}
