/**
 * Helpers over the mixed listing feed: an apartment arrives as a property
 * record, a boarding house as one of its room types (which embeds its parent
 * property).  The two shapes are told apart by which keys are present.
 */
module PropertyHelpers {
  import opened Wrappers

  /** The parent property embedded in a room type. */
  datatype ParentProperty = ParentProperty(id: string, title: string, province: string, ward: string, address: string)

  /** A feed item of either shape.  `hasTypeKey` and `hasRoomsKey` record
      whether the keys `type` and `rooms` are present; `parent` is the
      `property` key (present with a record, or absent).  Optional fields are
      `None` when absent, undefined or null. */
  datatype Listing = Listing(
    id: string,
    hasTypeKey: bool,
    hasRoomsKey: bool,
    parent: Option<ParentProperty>,
    address: string,
    ward: string,
    province: string,
    heroImage: Option<string>,
    images: Option<seq<string>>,
    gallery: Option<seq<string>>,
    bedrooms: Option<int>,
    bathrooms: Option<int>,
    area: Option<int>,
    price: Option<int>,
    deposit: Option<int>,
    furnishing: Option<string>,
    updatedAt: Option<string>)

  datatype Details = Details(
    bedrooms: Option<int>,
    bathrooms: Option<int>,
    area: Option<int>,
    price: Option<int>,
    deposit: Option<int>,
    furnishing: Option<string>)

  const DefaultImage := "/assets/imgs/house-item.png"

  /** `isRoomType`: `property` and `rooms` present, `type` absent. */
  function IsRoomType(item: Listing): (b: bool)
    ensures b ==> item.parent.Some? && !IsProperty(item)
    ensures item.hasTypeKey || !item.hasRoomsKey ==> !b
  {
    item.parent.Some? && item.hasRoomsKey && !item.hasTypeKey
  }

  /** `isProperty`: `type` present, `property` absent. */
  function IsProperty(item: Listing): (b: bool)
    ensures b ==> item.parent.None?
    ensures !item.hasTypeKey ==> !b
  {
    item.hasTypeKey && item.parent.None?
  }

  /** A present, non-empty string (JavaScript truthiness). */
  predicate Present(s: Option<string>) {
    s.Some? && s.value != ""
  }

  /** `list?.[0]` as a present value. */
  function First(list: Option<seq<string>>): Option<string> {
    if list.Some? && |list.value| > 0 then Some(list.value[0]) else None
  }

  /** `a || b` over optional strings. */
  function OrElse(a: Option<string>, b: string): (r: string)
    ensures Present(a) ==> r == a.value
    ensures !Present(a) ==> r == b
  {
    if Present(a) then a.value else b
  }

  /** `getPropertyId`: the parent's id for a room type, the item's own id otherwise. */
  function GetPropertyId(item: Listing): (id: string)
    ensures IsRoomType(item) ==> id == item.parent.value.id
    ensures !IsRoomType(item) ==> id == item.id
  {
    if IsRoomType(item) then item.parent.value.id else item.id
  }

  /** `getDisplayId`: both branches return the item's own id. */
  function GetDisplayId(item: Listing): (id: string)
    ensures id == item.id
  {
    if IsRoomType(item) then item.id else item.id
  }

  /** `getPropertyType`. */
  function GetPropertyType(item: Listing): (t: string)
    ensures t == "boarding" <==> IsRoomType(item)
    ensures t == "apartment" <==> !IsRoomType(item)
  {
    if IsRoomType(item) then "boarding" else "apartment"
  }

  /** `getPropertyLocation`: "address, ward, province" of the parent for a
      room type, of the item itself otherwise. */
  function GetPropertyLocation(item: Listing): (loc: string)
    ensures IsRoomType(item) ==>
      loc == item.parent.value.address + ", " + item.parent.value.ward + ", " + item.parent.value.province
    ensures !IsRoomType(item) ==> loc == item.address + ", " + item.ward + ", " + item.province
  {
    var p := if IsRoomType(item) then item.parent.value
             else ParentProperty(item.id, "", item.province, item.ward, item.address);
    p.address + ", " + p.ward + ", " + p.province
  }

  /** `getPropertyImage`: hero, first image, first gallery entry (property
      shape only), default. */
  function GetPropertyImage(item: Listing): (img: string)
    ensures img != ""
    ensures Present(item.heroImage) ==> img == item.heroImage.value
    ensures !Present(item.heroImage) && Present(First(item.images)) ==> img == item.images.value[0]
    ensures (!Present(item.heroImage) && !Present(First(item.images)) && !IsRoomType(item) &&
             Present(First(item.gallery))) ==> img == item.gallery.value[0]
    ensures (!Present(item.heroImage) && !Present(First(item.images)) &&
             (IsRoomType(item) || !Present(First(item.gallery)))) ==> img == DefaultImage
  {
    if IsRoomType(item) then OrElse(item.heroImage, OrElse(First(item.images), DefaultImage))
    else OrElse(item.heroImage, OrElse(First(item.images), OrElse(First(item.gallery), DefaultImage)))
  }

  /** `getPropertyDetails`: room types pass their numbers through; a
      property substitutes 0 and "" for missing values. */
  function GetPropertyDetails(item: Listing): (d: Details)
    ensures IsRoomType(item) ==>
      d == Details(item.bedrooms, item.bathrooms, item.area, item.price, item.deposit, item.furnishing)
    ensures !IsRoomType(item) ==>
      d.bedrooms.Some? && d.bathrooms.Some? && d.area.Some? && d.price.Some? && d.deposit.Some? && d.furnishing.Some?
    ensures !IsRoomType(item) && item.price.None? ==> d.price == Some(0)
    ensures !IsRoomType(item) && item.price.Some? ==> d.price == item.price
    ensures !IsRoomType(item) && item.furnishing.None? ==> d.furnishing == Some("")
    ensures !IsRoomType(item) && item.furnishing.Some? ==> d.furnishing == item.furnishing
    ensures !IsRoomType(item) ==>
      d.bedrooms == Some(item.bedrooms.GetOr(0)) && d.bathrooms == Some(item.bathrooms.GetOr(0)) &&
      d.area == Some(item.area.GetOr(0)) && d.deposit == Some(item.deposit.GetOr(0))
  {
    if IsRoomType(item) then
      Details(item.bedrooms, item.bathrooms, item.area, item.price, item.deposit, item.furnishing)
    else
      Details(Some(item.bedrooms.GetOr(0)), Some(item.bathrooms.GetOr(0)), Some(item.area.GetOr(0)),
              Some(item.price.GetOr(0)), Some(item.deposit.GetOr(0)), Some(item.furnishing.GetOr("")))
  }

  /** `getUpdatedDate`. */
  function GetUpdatedDate(item: Listing): (d: string)
    ensures IsRoomType(item) ==> d == ""
    ensures !IsRoomType(item) && item.updatedAt.Some? ==> d == item.updatedAt.value
    ensures !IsRoomType(item) && item.updatedAt.None? ==> d == ""
  {
    if IsRoomType(item) then "" else item.updatedAt.GetOr("")
  }

  predicate NonEmptyList(list: Option<seq<string>>) {
    list.Some? && |list.value| > 0
  }

  /** `getPropertyImages`: pushes the hero, then the images, or failing
      those (property shape only) the gallery. */
  method GetPropertyImages(item: Listing) returns (images: seq<string>)
    ensures Present(item.heroImage) ==> |images| > 0 && images[0] == item.heroImage.value
    ensures forall x :: x in images ==>
      (Present(item.heroImage) && x == item.heroImage.value) ||
      (item.images.Some? && x in item.images.value) ||
      (!IsRoomType(item) && item.gallery.Some? && x in item.gallery.value)
    ensures |images| == (if Present(item.heroImage) then 1 else 0) +
      (if NonEmptyList(item.images) then |item.images.value|
       else if !IsRoomType(item) && NonEmptyList(item.gallery) then |item.gallery.value| else 0)
    ensures NonEmptyList(item.images) ==> images[|images| - |item.images.value|..] == item.images.value
    ensures (!NonEmptyList(item.images) && !IsRoomType(item) && NonEmptyList(item.gallery)) ==>
      images[|images| - |item.gallery.value|..] == item.gallery.value
  {
    images := [];
    if Present(item.heroImage) {
      images := images + [item.heroImage.value];
    }
    if NonEmptyList(item.images) {
      images := images + item.images.value;
    } else if !IsRoomType(item) && NonEmptyList(item.gallery) {
      images := images + item.gallery.value;
    }
  }

  /** The two type guards never both hold. */
  lemma GuardsExclusive(item: Listing)
    ensures !(IsRoomType(item) && IsProperty(item))
  {
  }

  /** The two shapes agree on a listing that carries every figure: the
      property branch's defaults only fill gaps, so feeding a listing's
      details back into it changes nothing. */
  lemma DetailsDefaultsOnlyFillGaps(item: Listing)
    ensures (item.bedrooms.Some? && item.bathrooms.Some? && item.area.Some? && item.price.Some? &&
             item.deposit.Some? && item.furnishing.Some?) ==>
      GetPropertyDetails(item) == Details(item.bedrooms, item.bathrooms, item.area, item.price, item.deposit, item.furnishing)
    ensures var d := GetPropertyDetails(item);
            !IsRoomType(item) ==>
              GetPropertyDetails(item.(bedrooms := d.bedrooms, bathrooms := d.bathrooms, area := d.area,
                                       price := d.price, deposit := d.deposit, furnishing := d.furnishing)) == d
  {
  }

  /** The image list that `getPropertyImages` builds, on any item: the
      thumbnail is its first entry exactly when that entry is non-empty, and
      the default image when the list is empty. */
  lemma ThumbnailIsFirstImage(item: Listing, images: seq<string>)
    requires images == (if Present(item.heroImage) then [item.heroImage.value] else []) +
      (if NonEmptyList(item.images) then item.images.value
       else if !IsRoomType(item) && NonEmptyList(item.gallery) then item.gallery.value else [])
    ensures images != [] ==> (GetPropertyImage(item) == images[0] <==> images[0] != "")
    ensures images == [] ==> GetPropertyImage(item) == DefaultImage
  {
  }

  /** Where the two disagree: a property whose first image is "" shows its
      first gallery entry as the thumbnail, while its image list starts with
      the empty string and leaves the gallery out. */
  lemma EmptyFirstImageSkipsToGallery()
    ensures var item := Listing("p1", true, false, None, "", "", "", None, Some([""]), Some(["g.jpg"]),
                                None, None, None, None, None, None, None);
            GetPropertyImage(item) == "g.jpg" &&
            (if Present(item.heroImage) then [item.heroImage.value] else []) +
            (if NonEmptyList(item.images) then item.images.value
             else if !IsRoomType(item) && NonEmptyList(item.gallery) then item.gallery.value else []) == [""]
  {
  }
}
