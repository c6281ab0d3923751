/**
 * The property detail screen's logic: the two payload shapes (a boarding
 * room type with its rooms, or an apartment property), the image list and
 * carousel, the units offered for booking, the "rented" flag, the
 * last-updated caption and the booking request built from the selection.
 * The clock and the engine's date parsing are inputs.
 */
module PropertyDetail {
  import opened Wrappers
  import opened Js
  import DateUtils

  datatype RoomParent = RoomParent(id: Option<string>, landlordId: Option<string>)

  datatype Room = Room(id: string, name: string, isVisible: bool, parent: Option<RoomParent>)

  /** Either payload shape.  `rooms` is `None` when the key is absent or not
      an array; optional fields are `None` when absent or null. */
  datatype Detail = Detail(
    id: Option<string>,
    rooms: Option<seq<Room>>,
    heroImage: Option<string>,
    images: Option<seq<string>>,
    unit: Option<string>,
    isVisible: Option<bool>,
    landlordId: Option<string>)

  const Placeholder := "https://via.placeholder.com/400x240?text=Property+Image"

  /** A present, non-empty string. */
  predicate Present(s: Option<string>) {
    s.Some? && s.value != ""
  }

  /** `isRoomTypeDetail`: `rooms` is a non-empty array. */
  predicate IsRoomTypeDetail(d: Detail) {
    d.rooms.Some? && |d.rooms.value| > 0
  }

  /** The hero image (when non-empty) followed by every listed image. */
  function CollectedImages(d: Detail): seq<string> {
    (if Present(d.heroImage) then [d.heroImage.value] else []) + (if d.images.Some? then d.images.value else [])
  }

  /** `getImages()`: the collected images, or the placeholder alone. */
  method GetImages(d: Detail) returns (imgs: seq<string>)
    ensures |imgs| >= 1
    ensures CollectedImages(d) != [] ==> imgs == CollectedImages(d)
    ensures CollectedImages(d) == [] ==> imgs == [Placeholder]
    ensures Present(d.heroImage) ==> imgs[0] == d.heroImage.value
  {
    imgs := [];
    if Present(d.heroImage) {
      imgs := imgs + [d.heroImage.value];
    }
    if d.images.Some? {
      imgs := imgs + d.images.value;
    }
    if |imgs| == 0 {
      imgs := [Placeholder];
    }
  }

  /** The names of the rooms not yet visible (still bookable), in order. */
  function HiddenRoomNames(rooms: seq<Room>): (names: seq<string>)
    ensures |names| <= |rooms|
    ensures forall n :: n in names <==> exists i :: 0 <= i < |rooms| && !rooms[i].isVisible && rooms[i].name == n
    decreases |rooms|
  {
    if rooms == [] then []
    else
      var last := rooms[|rooms| - 1];
      var init := HiddenRoomNames(rooms[..|rooms| - 1]);
      assert forall n :: n in init <==> exists i :: 0 <= i < |rooms| - 1 && !rooms[i].isVisible && rooms[i].name == n;
      init + (if !last.isVisible then [last.name] else [])
  }

  /** `getUnits()`. */
  function GetUnits(d: Detail): (units: seq<string>)
    ensures IsRoomTypeDetail(d) ==> units == HiddenRoomNames(d.rooms.value)
    ensures !IsRoomTypeDetail(d) && Present(d.unit) ==> units == [d.unit.value]
    ensures !IsRoomTypeDetail(d) && !Present(d.unit) ==> units == []
  {
    if IsRoomTypeDetail(d) then HiddenRoomNames(d.rooms.value)
    else if Present(d.unit) then [d.unit.value]
    else []
  }

  /** `isRented`: all rooms visible, or the apartment's own flag. */
  function IsRented(d: Detail): (b: bool)
    ensures IsRoomTypeDetail(d) ==> (b <==> forall i :: 0 <= i < |d.rooms.value| ==> d.rooms.value[i].isVisible)
    ensures !IsRoomTypeDetail(d) ==> (b <==> d.isVisible == Some(true))
  {
    if IsRoomTypeDetail(d) then forall i :: 0 <= i < |d.rooms.value| ==> d.rooms.value[i].isVisible
    else d.isVisible == Some(true)
  }

  /** A boarding house is rented exactly when it offers no unit. */
  lemma RentedIffNoUnits(d: Detail)
    requires IsRoomTypeDetail(d)
    ensures IsRented(d) <==> GetUnits(d) == []
  {
    var rooms := d.rooms.value;
    if !IsRented(d) {
      var i :| 0 <= i < |rooms| && !rooms[i].isVisible;
      assert rooms[i].name in HiddenRoomNames(rooms);
    }
    if HiddenRoomNames(rooms) != [] {
      var n := HiddenRoomNames(rooms)[0];
      assert n in HiddenRoomNames(rooms);
      var i :| 0 <= i < |rooms| && !rooms[i].isVisible && rooms[i].name == n;
    }
  }

  /** `getPropertyId()`: the first room's parent id, else the own id, else "". */
  function GetPropertyId(d: Detail): (id: string)
    ensures IsRoomTypeDetail(d) && d.rooms.value[0].parent.Some? && Present(d.rooms.value[0].parent.value.id) ==>
      id == d.rooms.value[0].parent.value.id.value
    ensures IsRoomTypeDetail(d) && !(d.rooms.value[0].parent.Some? && Present(d.rooms.value[0].parent.value.id)) ==>
      id == ""
    ensures !IsRoomTypeDetail(d) && Present(d.id) ==> id == d.id.value
    ensures !IsRoomTypeDetail(d) && !Present(d.id) ==> id == ""
  {
    if IsRoomTypeDetail(d) then
      var p := d.rooms.value[0].parent;
      if p.Some? && Present(p.value.id) then p.value.id.value else ""
    else if Present(d.id) then d.id.value else ""
  }

  /** `getLandlord()?.id`. */
  function GetLandlordId(d: Detail): (id: Option<string>)
    ensures IsRoomTypeDetail(d) ==>
      id == (if d.rooms.value[0].parent.Some? then d.rooms.value[0].parent.value.landlordId else None)
    ensures !IsRoomTypeDetail(d) ==> id == d.landlordId
  {
    if IsRoomTypeDetail(d) then
      var p := d.rooms.value[0].parent;
      if p.Some? then p.value.landlordId else None
    else d.landlordId
  }

  // ---------- last-updated caption ----------

  const MsPerHour := 3600000

  /** `dd/mm/yyyy` from the `Date` getters (month 0-based). */
  function FormatDmy(date: DateUtils.CivilDate): string {
    PadStart2(IntToString(date.day)) + "/" + PadStart2(IntToString(date.month + 1)) + "/" + IntToString(date.year)
  }

  /** `getTimeAgo(dateString)`.  `parsed` is what the engine's `Date` made of
      the string: its time value and local calendar date, or `None` for an
      invalid date (whose `NaN` fails every comparison).  `nowMs` is the
      clock. */
  function GetTimeAgo(dateString: Option<string>, parsed: Option<(int, DateUtils.CivilDate)>, nowMs: int): (r: string)
    ensures !Present(dateString) ==> r == "Không rõ"
    ensures Present(dateString) && parsed.None? ==> r == "Cập nhật NaN/NaN/NaN"
    ensures Present(dateString) && parsed.Some? ==>
      var diff := nowMs - parsed.value.0;
      (diff < MsPerHour ==> r == "Vừa mới cập nhật") &&
      (MsPerHour <= diff < 24 * MsPerHour ==> r == "Cập nhật " + IntToString(diff / MsPerHour) + " giờ trước") &&
      (24 * MsPerHour <= diff < 7 * DateUtils.MsPerDay ==> r == "Cập nhật " + IntToString(diff / DateUtils.MsPerDay) + " ngày trước") &&
      (diff >= 7 * DateUtils.MsPerDay ==> r == "Cập nhật " + FormatDmy(parsed.value.1))
  {
    if !Present(dateString) then "Không rõ"
    else match parsed
      case None => "Cập nhật NaN/NaN/NaN"
      case Some((ms, date)) =>
        var diffMs := nowMs - ms;
        var diffHours := diffMs / MsPerHour;
        var diffDays := diffMs / DateUtils.MsPerDay;
        if diffHours < 1 then "Vừa mới cập nhật"
        else if diffHours < 24 then "Cập nhật " + IntToString(diffHours) + " giờ trước"
        else if diffDays < 7 then "Cập nhật " + IntToString(diffDays) + " ngày trước"
        else "Cập nhật " + FormatDmy(date)
  }

  /** The hours and days shown are within their bands. */
  lemma TimeAgoBands(diff: int)
    ensures MsPerHour <= diff < 24 * MsPerHour ==> 1 <= diff / MsPerHour <= 23
    ensures 24 * MsPerHour <= diff < 7 * DateUtils.MsPerDay ==> 1 <= diff / DateUtils.MsPerDay <= 6
  {
  }

  /** A day or month number below 100, zero-padded, reads back as itself. */
  lemma {:induction false} PaddedRoundTrip(n: nat)
    requires n < 100
    ensures var s := PadStart2(IntToString(n));
            |s| == 2 && IsDigits(s) && DigitsValue(s) == n
  {
    NatToStringLength(n);
    NatToStringRoundTrip(n);
    var t := NatToString(n);
    if n < 10 {
      var s := PadStart2(t);
      assert s == "0" + t;
      assert s[..1] == "0";
      assert DigitsValue("0") == 0 by { assert "0"[..0] == ""; }
      assert t[..0] == "";
    }
  }

  /** The caption's date reads back through the invoice date parser: the
      formatter and `parseDateString`'s pattern agree on dd/mm/yyyy. */
  lemma FormattedDateParses(date: DateUtils.CivilDate)
    requires 1 <= date.day <= 31 && 0 <= date.month <= 11 && 1000 <= date.year <= 9999
    ensures DateUtils.MatchDmy(FormatDmy(date)) == Some((date.day as nat, (date.month + 1) as nat, date.year as nat))
  {
    var dd := PadStart2(IntToString(date.day));
    var mm := PadStart2(IntToString(date.month + 1));
    var yyyy := IntToString(date.year);
    PaddedRoundTrip(date.day);
    PaddedRoundTrip(date.month + 1);
    NatToStringLength(date.year);
    NatToStringRoundTrip(date.year);
    DateUtils.ParsesDigits(dd, mm, yyyy);
  }

  // ---------- carousel ----------

  /** The index after `nextImage` on a list of `n > 1` images. */
  function NextIndex(i: int, n: int): (j: int)
    requires 0 <= i < n
    ensures 0 <= j < n
    ensures j == (i + 1) % n
  {
    if i + 1 >= n then 0 else i + 1
  }

  /** The index after `prevImage` on a list of `n > 1` images. */
  function PrevIndex(i: int, n: int): (j: int)
    requires 0 <= i < n
    ensures 0 <= j < n
    ensures j == (i - 1 + n) % n
  {
    if i - 1 < 0 then n - 1 else i - 1
  }

  /** Going forward then back (or back then forward) returns to the image. */
  lemma NextPrevInverse(i: int, n: int)
    requires 0 <= i < n
    ensures PrevIndex(NextIndex(i, n), n) == i
    ensures NextIndex(PrevIndex(i, n), n) == i
  {
  }

  /** The outcome of pressing the booking button. */
  datatype BookingAction =
    | NoAction                     // no landlord id
    | NeedUnitAlert                // boarding without a selected unit
    | CreateBooking(propertyId: string, roomId: Option<string>, landlordId: string)

  /** `rooms.find(room => room.name === name)?.id`. */
  function FindRoomId(rooms: seq<Room>, name: string): (id: Option<string>)
    ensures id.Some? ==> exists i :: 0 <= i < |rooms| && rooms[i].name == name && rooms[i].id == id.value &&
                                     forall j :: 0 <= j < i ==> rooms[j].name != name
    ensures id.None? <==> forall i :: 0 <= i < |rooms| ==> rooms[i].name != name
    decreases |rooms|
  {
    if rooms == [] then None
    else if rooms[0].name == name then Some(rooms[0].id)
    else
      var r := FindRoomId(rooms[1..], name);
      assert forall i :: 1 <= i < |rooms| ==> rooms[i] == rooms[1..][i - 1];
      r
  }

  /** The screen's state: the carousel position and the selected unit. */
  class DetailScreen {
    const detail: Detail
    const images: seq<string>
    var currentImageIndex: int
    var selectedUnit: string

    ghost predicate Valid()
      reads this
    {
      0 <= currentImageIndex < |images|
    }

    constructor (d: Detail)
      ensures detail == d && images == (if CollectedImages(d) != [] then CollectedImages(d) else [Placeholder])
      ensures currentImageIndex == 0 && selectedUnit == ""
      ensures Valid()
    {
      detail := d;
      var imgs := GetImages(d);
      images := imgs;
      currentImageIndex := 0;
      selectedUnit := "";
    }

    /** `nextImage()`. */
    method NextImage()
      requires Valid()
      modifies this`currentImageIndex
      ensures Valid()
      ensures |images| <= 1 ==> currentImageIndex == old(currentImageIndex)
      ensures |images| > 1 ==> currentImageIndex == NextIndex(old(currentImageIndex), |images|)
    {
      if |images| <= 1 {
        return;
      }
      currentImageIndex := if currentImageIndex + 1 >= |images| then 0 else currentImageIndex + 1;
    }

    /** `prevImage()`. */
    method PrevImage()
      requires Valid()
      modifies this`currentImageIndex
      ensures Valid()
      ensures |images| <= 1 ==> currentImageIndex == old(currentImageIndex)
      ensures |images| > 1 ==> currentImageIndex == PrevIndex(old(currentImageIndex), |images|)
    {
      if |images| <= 1 {
        return;
      }
      currentImageIndex := if currentImageIndex - 1 < 0 then |images| - 1 else currentImageIndex - 1;
    }

    /** Picking a unit from the offered list. */
    method SelectUnit(unit: string)
      modifies this`selectedUnit
      ensures selectedUnit == unit
    {
      selectedUnit := unit;
    }

    /** `handleCreateBooking()`; `settled` tells whether the booking call
        resolved (only then is the selection cleared). */
    method HandleCreateBooking(propertyType: string, settled: bool) returns (action: BookingAction)
      modifies this`selectedUnit
      ensures !Present(GetLandlordId(detail)) ==> action == NoAction && selectedUnit == old(selectedUnit)
      ensures Present(GetLandlordId(detail)) && propertyType == "boarding" && old(selectedUnit) == "" ==>
        action == NeedUnitAlert && selectedUnit == ""
      ensures Present(GetLandlordId(detail)) && !(propertyType == "boarding" && old(selectedUnit) == "") ==>
        action == CreateBooking(GetPropertyId(detail),
                                if propertyType == "boarding" && IsRoomTypeDetail(detail)
                                then FindRoomId(detail.rooms.value, old(selectedUnit)) else None,
                                GetLandlordId(detail).value) &&
        selectedUnit == (if settled then "" else old(selectedUnit))
    {
      var landlordId := GetLandlordId(detail);
      if !Present(landlordId) {
        return NoAction;
      }
      if propertyType == "boarding" && selectedUnit == "" {
        return NeedUnitAlert;
      }
      var roomId: Option<string> := None;
      if propertyType == "boarding" && selectedUnit != "" {
        if IsRoomTypeDetail(detail) {
          roomId := FindRoomId(detail.rooms.value, selectedUnit);
        }
      }
      action := CreateBooking(GetPropertyId(detail), roomId, landlordId.value);
      if settled {
        selectedUnit := "";
      }
    }
  }

  /** Selecting an offered unit of a boarding house always finds a room of
      that name to book: the first room carrying it, which, when names
      repeat, may be a visible one. */
  lemma OfferedUnitFindsRoom(d: Detail, unit: string)
    requires IsRoomTypeDetail(d) && unit in GetUnits(d)
    ensures FindRoomId(d.rooms.value, unit).Some?
  {
    var i :| 0 <= i < |d.rooms.value| && !d.rooms.value[i].isVisible && d.rooms.value[i].name == unit;
  }
}
