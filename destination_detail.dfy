/** The destination page: its gallery, its favourite heart, and the Book Now
    button. Reviews and weather are loaded for display only. */
module DestinationDetail {
  import opened Base
  import opened Text
  import opened DestinationsPage

  /** The page's fallback pictures are six fixed images, known here by their
      position. */
  const FallbackCount := 6
  const LoadFailed := "Failed to load destination details. Please try again."

  datatype DetailDestination = DetailDestination(id: nat, images: Option<seq<string>>, mainImageUrl: Option<string>)

  /** `getFallbackImage`'s index: the key when it is truthy, else 0. */
  function FallbackIndex(d: DetailDestination): (r: nat)
    ensures r < FallbackCount
    ensures d.id != 0 ==> r == d.id % FallbackCount
    ensures d.id == 0 ==> r == 0
  {
    if d.id != 0 then d.id % FallbackCount else 0
  }

  datatype Picture = Address(url: string) | FallbackPicture(index: nat)

  function Addresses(urls: seq<string>): (r: seq<Picture>)
    ensures |r| == |urls| && forall i :: 0 <= i < |urls| ==> r[i] == Address(urls[i])
  {
    seq(|urls|, i requires 0 <= i < |urls| => Address(urls[i]))
  }

  /** `images || [main_image_url].filter(Boolean)`, and the fallback when
      that is empty. An `images` array that is present wins even when it is
      empty, and then the fallback is shown even if there is a main image. */
  function DisplayImages(d: DetailDestination): (r: seq<Picture>)
    ensures |r| >= 1
    ensures d.images.Some? && d.images.value != [] ==> r == Addresses(d.images.value)
    ensures d.images.None? && d.mainImageUrl.Some? && d.mainImageUrl.value != "" ==>
      r == [Address(d.mainImageUrl.value)]
    ensures r == [FallbackPicture(FallbackIndex(d))] <==>
      if d.images.Some? then d.images.value == [] else d.mainImageUrl.None? || d.mainImageUrl.value == ""
  {
    var images :=
      if d.images.Some? then d.images.value
      else if d.mainImageUrl.Some? && d.mainImageUrl.value != "" then [d.mainImageUrl.value]
      else [];
    if |images| > 0 then
      assert Addresses(images)[0].Address?;
      Addresses(images)
    else [FallbackPicture(FallbackIndex(d))]
  }

  /** An empty gallery hides the main image. */
  lemma EmptyGalleryHidesMainImage(id: nat, main: string)
    requires main != ""
    ensures DisplayImages(DetailDestination(id, Some([]), Some(main))) == [FallbackPicture(FallbackIndex(DetailDestination(id, Some([]), Some(main))))]
  {
  }

  /** `favorites_status[destination.id] || false`. */
  function StatusOf(m: map<string, bool>, id: nat): (r: bool)
    ensures r <==> NatToString(id) in m && m[NatToString(id)]
  {
    NatToString(id) in m && m[NatToString(id)]
  }

  class Page {
    var destination: Option<DetailDestination>
    var isLoading: bool
    var error: Option<string>
    var isFavorite: bool
    var showBookingModal: bool

    constructor ()
      ensures destination.None? && isLoading && error.None? && !isFavorite && !showBookingModal
    {
      destination := None;
      isLoading := true;
      error := None;
      isFavorite := false;
      showBookingModal := false;
    }

    /** `loadDestinationData`: the destination is stored as soon as it
      arrives; a failure of that request, or of the reviews request after
      it, shows the error. A weather failure is swallowed. Loading ends
      either way. */
    method Load(result: Outcome<DetailDestination>, reviewsLoaded: bool)
      modifies this
      ensures !isLoading && isFavorite == old(isFavorite) && showBookingModal == old(showBookingModal)
      ensures result.Ok? ==> destination == Some(result.value)
      ensures result.Failed? ==> destination == old(destination)
      ensures error.None? <==> result.Ok? && reviewsLoaded
      ensures error.Some? ==> error.value == LoadFailed
    {
      isLoading := true;
      error := None;
      if result.Failed? {
        error := Some(LoadFailed);
      } else {
        destination := Some(result.value);
        if !reviewsLoaded {
          error := Some(LoadFailed);
        }
      }
      isLoading := false;
    }

    /** `toggleFavorite`: signed out, it goes to the sign-in page without a
      request; signed in, a successful answer sets the heart to what the
      server says. */
    method ToggleFavorite(isAuthenticated: bool, response: Outcome<ToggleResponse>) returns (requested: bool, nav: Nav)
      requires destination.Some?
      modifies this
      ensures requested <==> isAuthenticated
      ensures nav == if isAuthenticated then Stay else Go("/login")
      ensures isAuthenticated && response.Ok? && response.value.success ==> isFavorite == response.value.isFavorited
      ensures !(isAuthenticated && response.Ok? && response.value.success) ==> isFavorite == old(isFavorite)
      ensures destination == old(destination) && showBookingModal == old(showBookingModal)
      ensures isLoading == old(isLoading) && error == old(error)
    {
      if !isAuthenticated {
        return false, Go("/login");
      }
      requested, nav := true, Stay;
      if response.Ok? && response.value.success {
        isFavorite := response.value.isFavorited;
      }
    }

    /** `loadFavoriteStatus`: only for a signed-in visitor on a loaded page;
      a destination missing from the answer is not a favourite. */
    method LoadFavoriteStatus(isAuthenticated: bool, response: Outcome<StatusResponse>) returns (requested: bool)
      modifies this
      ensures requested <==> isAuthenticated && destination.Some?
      ensures requested && response.Ok? && response.value.success ==>
        isFavorite == StatusOf(response.value.favoritesStatus, destination.value.id)
      ensures !(requested && response.Ok? && response.value.success) ==> isFavorite == old(isFavorite)
      ensures destination == old(destination) && showBookingModal == old(showBookingModal)
      ensures isLoading == old(isLoading) && error == old(error)
    {
      if !isAuthenticated || destination.None? {
        return false;
      }
      requested := true;
      if response.Ok? && response.value.success {
        isFavorite := StatusOf(response.value.favoritesStatus, destination.value.id);
      }
    }

    /** `handleBookNow`: signed out, it goes to the sign-in page carrying
      this page's path so the visitor comes back; signed in, the booking
      modal opens. */
    method HandleBookNow(isAuthenticated: bool, routeId: string) returns (nav: Nav)
      modifies this
      ensures !isAuthenticated ==> nav == NavigateTo("/login", [], Some("/destinations/" + routeId))
      ensures !isAuthenticated ==> showBookingModal == old(showBookingModal)
      ensures isAuthenticated ==> nav == Stay && showBookingModal
      ensures destination == old(destination) && isFavorite == old(isFavorite)
      ensures isLoading == old(isLoading) && error == old(error)
    {
      if !isAuthenticated {
        return NavigateTo("/login", [], Some("/destinations/" + routeId));
      }
      showBookingModal := true;
      nav := Stay;
    }
  }
}
