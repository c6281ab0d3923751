/**
 * The listing form's validation rules, stated on the values after numeric
 * coercion.  Optional fields are `None` when left out; numbers are reals.
 */
module Schema {
  import opened Wrappers
  import opened Js

  datatype RoomTypeInput = RoomTypeInput(
    name: string,
    bedrooms: Option<real>,     // defaults to 0
    bathrooms: Option<real>,    // defaults to 0
    legalDoc: Option<string>,
    area: real,
    price: real,
    deposit: Option<real>,
    count: real,
    locations: seq<string>,
    images: seq<string>)

  datatype Floor = Floor(name: string, rooms: seq<string>)

  datatype FormInput = FormInput(
    title: string,
    kind: string,
    province: string,
    ward: string,
    street: string,
    block: Option<string>,
    floor: Option<string>,
    unit: Option<string>,
    floors: seq<Floor>,
    electricityPrice: Option<real>,
    waterPrice: Option<real>,
    description: Option<string>,
    bedrooms: Option<real>,
    bathrooms: Option<real>,
    furnishing: Option<string>,
    legalDoc: Option<string>,
    area: Option<real>,
    price: Option<real>,
    deposit: Option<real>,
    heroImage: Option<string>,
    gallery: seq<string>,
    roomTypes: seq<RoomTypeInput>)

  /** An optional number that, when given, is at least `min`. */
  predicate AtLeastIfPresent(x: Option<real>, min: real) {
    x.None? || x.value >= min
  }

  /** `ListingKind`. */
  predicate IsListingKind(kind: string) {
    kind == "APARTMENT" || kind == "BOARDING"
  }

  /** `RoomTypeSchema`. */
  function RoomTypeValid(r: RoomTypeInput): (ok: bool)
    ensures ok ==> r.name != "" && r.area > 0.0 && r.price >= 0.0 && r.count >= 1.0 && |r.images| <= 8
    ensures r.name == "" || r.area < 0.1 || r.count < 1.0 || |r.images| > 8 ==> !ok
  {
    Utf16Length(r.name) >= 1 &&
    AtLeastIfPresent(r.bedrooms, 0.0) && AtLeastIfPresent(r.bathrooms, 0.0) &&
    r.area >= 0.1 && r.price >= 0.0 &&
    AtLeastIfPresent(r.deposit, 0.0) &&
    r.count >= 1.0 &&
    |r.images| <= 8
  }

  /** The object part of `FormSchema`.  Text lengths are JavaScript
      lengths (UTF-16 code units); list lengths count entries. */
  function FormFieldsValid(f: FormInput): (ok: bool)
    ensures ok ==> f.title != "" && |f.title| <= 100
    ensures ok ==> f.province != "" && f.ward != "" && f.street != ""
    ensures ok ==> IsListingKind(f.kind) && |f.gallery| <= 8
    ensures ok ==> f.description.None? || |f.description.value| <= 1500
    ensures ok ==> forall i :: 0 <= i < |f.roomTypes| ==> f.roomTypes[i].name != "" && f.roomTypes[i].count >= 1.0
    ensures Utf16Length(f.title) > 100 ==> !ok
  {
    1 <= Utf16Length(f.title) <= 100 &&
    IsListingKind(f.kind) &&
    Utf16Length(f.province) >= 1 && Utf16Length(f.ward) >= 1 && Utf16Length(f.street) >= 1 &&
    AtLeastIfPresent(f.electricityPrice, 0.0) && AtLeastIfPresent(f.waterPrice, 0.0) &&
    (f.description.None? || Utf16Length(f.description.value) <= 1500) &&
    AtLeastIfPresent(f.bedrooms, 0.0) && AtLeastIfPresent(f.bathrooms, 0.0) &&
    AtLeastIfPresent(f.deposit, 0.0) &&
    |f.gallery| <= 8 &&
    (forall i :: 0 <= i < |f.roomTypes| ==> RoomTypeValid(f.roomTypes[i]))
  }

  /** The `refine` step: an apartment needs a positive area and a price;
      any other kind passes it. */
  function ApartmentRefine(f: FormInput): (ok: bool)
    ensures f.kind != "APARTMENT" ==> ok
    ensures ok && f.kind == "APARTMENT" ==> f.area.Some? && f.area.value > 0.0 && f.price.Some?
    ensures f.kind == "APARTMENT" && (f.area.None? || f.price.None?) ==> !ok
  {
    f.kind == "APARTMENT" ==> f.area.Some? && f.area.value > 0.0 && f.price.Some? && f.price.value >= 0.0
  }

  /** `FormSchema` as a whole: the object part, then the refine step. */
  function FormValid(f: FormInput): (ok: bool)
    ensures ok ==> FormFieldsValid(f)
    ensures ok ==> f.kind == "APARTMENT" || f.kind == "BOARDING"
    ensures !FormFieldsValid(f) ==> !ok
  {
    FormFieldsValid(f) && ApartmentRefine(f)
  }

  /** A valid apartment has a positive area and a non-negative price; a
      valid boarding house stays valid with its area and price removed, since
      the refine step asks nothing of it. */
  lemma ApartmentNeedsAreaAndPrice(f: FormInput)
    requires FormValid(f)
    ensures f.kind == "APARTMENT" ==> f.area.Some? && f.area.value > 0.0 && f.price.Some? && f.price.value >= 0.0
    ensures f.kind == "BOARDING" ==> FormValid(f.(area := None, price := None))
  {
  }

  /** The refine step constrains apartments only: for any other kind the
      schema is exactly its object part. */
  lemma RefineOnlyForApartments(f: FormInput)
    ensures f.kind != "APARTMENT" ==> (FormValid(f) <==> FormFieldsValid(f))
    ensures f.kind == "APARTMENT" ==>
      (FormValid(f) <==> FormFieldsValid(f) && f.area.Some? && f.area.value > 0.0 && f.price.Some? && f.price.value >= 0.0)
  {
  }

  /** Fields the schema leaves unconstrained (apartment block, floor and
      unit, the boarding floor plan, furnishing, legal document, hero image)
      never change the verdict. */
  lemma FreeFieldsIrrelevant(f: FormInput, block: Option<string>, floor: Option<string>, unit: Option<string>,
                             floors: seq<Floor>, furnishing: Option<string>, legalDoc: Option<string>,
                             heroImage: Option<string>)
    ensures FormValid(f) <==>
      FormValid(f.(block := block, floor := floor, unit := unit, floors := floors,
                   furnishing := furnishing, legalDoc := legalDoc, heroImage := heroImage))
  {
  }

  /** The form bounds in one place: title length, address fields, description, gallery. */
  lemma FormBounds(f: FormInput)
    requires FormValid(f)
    ensures 1 <= |f.title| <= 100
    ensures f.province != "" && f.ward != "" && f.street != ""
    ensures f.description.Some? ==> |f.description.value| <= 1500
    ensures |f.gallery| <= 8
    ensures forall r :: r in f.roomTypes ==> |r.images| <= 8 && r.count >= 1.0 && r.name != ""
  {
    forall r | r in f.roomTypes ensures |r.images| <= 8 && r.count >= 1.0 && r.name != "" {
      var i :| 0 <= i < |f.roomTypes| && f.roomTypes[i] == r;
      assert RoomTypeValid(f.roomTypes[i]);
    }
  }

  /** A title of 60 emoji is 120 UTF-16 code units long: rejected, though it
      has only 60 characters. */
  lemma EmojiTitleTooLong(f: FormInput)
    requires |f.title| == 60 && forall i :: 0 <= i < |f.title| ==> f.title[i] == '\U{1F3E0}'
    ensures !FormValid(f)
  {
    assert Utf16Length(f.title) == 120;
  }

  /** An apartment with no area fails only through the refine step. */
  lemma MissingAreaRejected(f: FormInput)
    requires FormFieldsValid(f) && f.kind == "APARTMENT" && f.area.None?
    ensures !FormValid(f)
  {
  }

  /** Room-type area has a strictly positive floor. */
  lemma RoomTypeAreaFloor(r: RoomTypeInput)
    requires r.area < 0.1
    ensures !RoomTypeValid(r)
  {
  }
}
