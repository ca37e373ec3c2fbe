/** The destination serializer: which picture address a destination is
    given, and the fixed rating and review count it reports. */
module DestinationSerializers {
  import opened Base
  import opened Text

  /** A destination row as the serializer reads it. `mainImage` is the URL of
      the uploaded picture, `None` when nothing was uploaded. The category is
      a foreign key; `categoryName` is `None` when the row has none. Prices
      are cents. */
  datatype Destination = Destination(
    id: nat, name: string, city: string, country: string, categoryName: Option<string>,
    shortDescription: string, pricePerPerson: int, mainImage: Option<string>,
    isFeatured: bool, createdAt: int)

  const ParisImage := "https://images.unsplash.com/photo-1502602898536-47ad22581b52?ixlib=rb-4.0.3&auto=format&fit=crop&w=800&h=600&q=80"
  const AlpsImage := "https://images.unsplash.com/photo-1506905925346-21bda4d32df4?ixlib=rb-4.0.3&auto=format&fit=crop&w=800&h=600&q=80"
  const NewYorkImage := "https://images.unsplash.com/photo-1496568816309-51d7c20e3b21?ixlib=rb-4.0.3&auto=format&fit=crop&w=800&h=600&q=80"
  const TokyoImage := "https://images.unsplash.com/photo-1549144511-f099e773c147?ixlib=rb-4.0.3&auto=format&fit=crop&w=800&h=600&q=80"
  const MaldivesImage := "https://images.unsplash.com/photo-1507525428034-b723cf961d3e?ixlib=rb-4.0.3&auto=format&fit=crop&w=800&h=600&q=80"
  const AdventureImage := "https://images.unsplash.com/photo-1551632811-561732d1e306?ixlib=rb-4.0.3&auto=format&fit=crop&w=800&h=600&q=80"
  const CityImage := "https://images.unsplash.com/photo-1477959858617-67f85cf4f1df?ixlib=rb-4.0.3&auto=format&fit=crop&w=800&h=600&q=80"
  const WildlifeImage := "https://images.unsplash.com/photo-1547036967-23d11aacaee0?ixlib=rb-4.0.3&auto=format&fit=crop&w=800&h=600&q=80"

  /** The pictures kept for five destinations by name. */
  const NameImages: map<string, string> := map[
    "Paris Luxury Experience" := ParisImage,
    "Swiss Alps Nature Trek" := AlpsImage,
    "New York City Explorer" := NewYorkImage,
    "Tokyo Cultural Discovery" := TokyoImage,
    "Maldives Luxury Escape" := MaldivesImage]

  /** The pictures kept per category, by lower-case category name. */
  const CategoryImages: map<string, string> := map[
    "adventure" := AdventureImage,
    "beach" := MaldivesImage,
    "cultural" := TokyoImage,
    "mountain" := AlpsImage,
    "city" := CityImage,
    "wildlife" := WildlifeImage]

  /** `obj.category.name.lower() if obj.category else 'adventure'`. */
  function CategoryKey(d: Destination): string
  {
    if d.categoryName.Some? then Lower(d.categoryName.value) else "adventure"
  }

  /** `get_main_image_url`. `origin` is the scheme and host of the request,
      when the serializer has one; the upload's address is made absolute
      against it. */
  function MainImageUrl(d: Destination, origin: Option<string>): string
  {
    if d.mainImage.Some? && d.mainImage.value != "" then
      (if origin.Some? then origin.value + d.mainImage.value else d.mainImage.value)
    else if d.name in NameImages then NameImages[d.name]
    else if CategoryKey(d) in CategoryImages then CategoryImages[CategoryKey(d)]
    else CategoryImages["adventure"]
  }

  /** The precedence of the picture sources: an upload wins over every
      fallback; a name with its own picture wins over the category; the
      category is looked up in lower case, and an unknown or missing
      category gives the adventure picture. Without an upload the address
      is one of the kept pictures, so it is never empty. */
  lemma MainImageUrlPrecedence(d: Destination, origin: Option<string>)
    ensures d.mainImage.Some? && d.mainImage.value != "" ==>
      MainImageUrl(d, origin) == (if origin.Some? then origin.value + d.mainImage.value else d.mainImage.value)
      && MainImageUrl(d, origin) != ""
    ensures !(d.mainImage.Some? && d.mainImage.value != "") && d.name in NameImages ==>
      MainImageUrl(d, origin) == NameImages[d.name]
    ensures !(d.mainImage.Some? && d.mainImage.value != "") && d.name !in NameImages ==>
      MainImageUrl(d, origin) in CategoryImages.Values
      && (d.categoryName.None? || Lower(d.categoryName.value) !in CategoryImages ==> MainImageUrl(d, origin) == AdventureImage)
    ensures !(d.mainImage.Some? && d.mainImage.value != "") ==> MainImageUrl(d, origin) != ""
  {
    if !(d.mainImage.Some? && d.mainImage.value != "") && d.name !in NameImages {
      assert CategoryImages["adventure"] == AdventureImage;
      if CategoryKey(d) in CategoryImages {
        assert CategoryImages[CategoryKey(d)] in CategoryImages.Values;
      }
    }
    if d.mainImage.Some? && d.mainImage.value != "" && origin.Some? {
      assert |origin.value + d.mainImage.value| >= |d.mainImage.value|;
    }
  }

  /** The category's case does not matter. */
  lemma MainImageUrlIgnoresCategoryCase(d: Destination, origin: Option<string>)
    requires d.categoryName.Some?
    ensures MainImageUrl(d, origin) == MainImageUrl(d.(categoryName := Some(Lower(d.categoryName.value))), origin)
  {
    LowerIdempotent(d.categoryName.value);
  }

  /** The fields of the serialized destination that the serializer
      computes. The rating is in hundredths. */
  datatype Serialized = Serialized(
    id: nat, name: string, categoryName: Option<string>, mainImageUrl: string, imageUrl: string,
    averageRating: int, totalReviews: int)

  const AverageRating := 450
  const TotalReviews := 42

  function Serialize(d: Destination, origin: Option<string>): (r: Serialized)
    ensures r.mainImageUrl == MainImageUrl(d, origin) && r.imageUrl == r.mainImageUrl
    ensures r.averageRating == AverageRating && r.totalReviews == TotalReviews
    ensures r.id == d.id && r.name == d.name && r.categoryName == d.categoryName
  {
    var url := MainImageUrl(d, origin);
    Serialized(d.id, d.name, d.categoryName, url, url, AverageRating, TotalReviews)
  }
}
