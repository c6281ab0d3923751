/**
 * Projection of a booking (with its optional nested contract) onto the
 * contract view used by the contract screens: one of seven display statuses
 * chosen by a first-match decision chain, plus the derived display fields.
 */
module ContractsMapper {
  import opened Wrappers

  /** The seven display statuses of a contract view. */
  datatype ContractStatus =
    | ActiveStatus
    | Expired
    | PendingSignature
    | PendingLandlord
    | AwaitingDeposit
    | AwaitingLandlordDeposit
    | ReadyForHandover

  /** The wire name of a display status. */
  function StatusName(s: ContractStatus): string {
    match s
    case ActiveStatus => "active"
    case Expired => "expired"
    case PendingSignature => "pending_signature"
    case PendingLandlord => "pending_landlord"
    case AwaitingDeposit => "awaiting_deposit"
    case AwaitingLandlordDeposit => "awaiting_landlord_deposit"
    case ReadyForHandover => "ready_for_handover"
  }

  /** Room-type prices arrive as decimal strings; `Some(n)` is the parsed
      amount and `None` stands for a missing or empty string. */
  datatype BookingRoomType = BookingRoomType(
    price: Option<int>,
    deposit: Option<int>,
    furnishing: Option<string>)

  datatype BookingRoom = BookingRoom(name: string, roomType: BookingRoomType)

  /** `property.unit`: absent, a plain code string, or a unit record. */
  datatype PropertyUnit = NoUnit | UnitCode(code: string) | UnitRecord(name: string)

  datatype BookingProperty = BookingProperty(
    kind: string,                // `type`: "APARTMENT", "BOARDING", ...
    price: Option<int>,          // a number or null
    deposit: Option<int>,        // a decimal string, null or ""
    furnishing: Option<string>,
    unit: PropertyUnit,
    address: string,
    ward: string,
    province: string,
    landlordName: string)

  datatype BookingContract = BookingContract(
    id: string,
    contractCode: string,
    startDate: string,
    endDate: string,
    status: string)

  datatype Booking = Booking(
    id: string,
    tenantName: string,
    property: BookingProperty,
    room: Option<BookingRoom>,
    status: string,
    contract: Option<BookingContract>)

  datatype ContractInvoice = ContractInvoice(
    id: int,
    invoiceId: string,
    month: string,
    dueDate: string,
    status: string)

  datatype ContractVM = ContractVM(
    id: string,
    bookingId: string,
    contractType: string,
    tenant: string,
    landlord: string,
    startDate: string,
    endDate: string,
    address: string,
    propertyCode: string,
    propertyType: string,
    category: string,
    price: int,
    deposit: int,
    status: ContractStatus,
    contractCode: Option<string>,
    contractId: Option<string>,
    bookingStatus: string,
    contractStatus: Option<string>,
    invoices: seq<ContractInvoice>)

  const NotAvailable := "N/A"
  const NoFurnishingInfo := "Chưa có thông tin"

  /** `s || fallback` for an optional string. */
  function StringOr(s: Option<string>, fallback: string): (r: string)
    ensures s.Some? && s.value != "" ==> r == s.value
    ensures (s.None? || s.value == "") ==> r == fallback
  {
    if s.Some? && s.value != "" then s.value else fallback
  }

  /** The nested contract's backend status, if there is a contract. */
  function ContractStatusOf(b: Booking): Option<string> {
    if b.contract.Some? then Some(b.contract.value.status) else None
  }

  /** The first-match status chain of the mapper. */
  function DecideStatus(bookingStatus: string, contractStatus: Option<string>): (s: ContractStatus)
    ensures s == ActiveStatus <==> bookingStatus in {"ACTIVE", "DUAL_ESCROW_FUNDED"}
    ensures s == Expired <==> bookingStatus in {"SETTLED", "CANCELLED"}
    ensures s == ReadyForHandover <==> bookingStatus == "READY_FOR_HANDOVER"
    ensures s == AwaitingLandlordDeposit <==> bookingStatus == "ESCROW_FUNDED_T"
    ensures s == AwaitingDeposit <==>
      bookingStatus == "ESCROW_FUNDED_L" ||
      (bookingStatus == "AWAITING_DEPOSIT" && contractStatus == Some("SIGNED"))
    ensures s == PendingSignature <==>
      (bookingStatus == "PENDING_SIGNATURE" && contractStatus != Some("PENDING_LANDLORD_SIGNATURE")) ||
      (bookingStatus == "AWAITING_DEPOSIT" && contractStatus != Some("SIGNED"))
    ensures s == PendingLandlord <==>
      (bookingStatus == "PENDING_SIGNATURE" && contractStatus == Some("PENDING_LANDLORD_SIGNATURE")) ||
      bookingStatus !in {"ACTIVE", "PENDING_SIGNATURE", "AWAITING_DEPOSIT", "ESCROW_FUNDED_T",
                         "ESCROW_FUNDED_L", "DUAL_ESCROW_FUNDED", "READY_FOR_HANDOVER",
                         "SETTLED", "CANCELLED"}
  {
    if bookingStatus == "ACTIVE" then ActiveStatus
    else if bookingStatus == "PENDING_LANDLORD" then PendingLandlord
    else if bookingStatus == "PENDING_SIGNATURE" then
      (if contractStatus == Some("PENDING_LANDLORD_SIGNATURE") then PendingLandlord else PendingSignature)
    else if bookingStatus == "AWAITING_DEPOSIT" then
      (if contractStatus == Some("SIGNED") then AwaitingDeposit else PendingSignature)
    else if bookingStatus == "ESCROW_FUNDED_T" then AwaitingLandlordDeposit
    else if bookingStatus == "ESCROW_FUNDED_L" then AwaitingDeposit
    else if bookingStatus == "DUAL_ESCROW_FUNDED" then ActiveStatus
    else if bookingStatus == "READY_FOR_HANDOVER" then ReadyForHandover
    else if bookingStatus in ["SETTLED", "CANCELLED"] then Expired
    else PendingLandlord
  }

  predicate IsBoarding(p: BookingProperty) {
    p.kind == "BOARDING"
  }

  /** Monthly price: the room type's for boarding houses, the property's otherwise. */
  function PriceOf(b: Booking): (r: int)
    ensures IsBoarding(b.property) && b.room.Some? ==> r == b.room.value.roomType.price.GetOr(0)
    ensures IsBoarding(b.property) && b.room.None? ==> r == 0
    ensures !IsBoarding(b.property) ==> r == b.property.price.GetOr(0)
  {
    if IsBoarding(b.property) then
      (if b.room.Some? then b.room.value.roomType.price.GetOr(0) else 0)
    else b.property.price.GetOr(0)
  }

  /** Deposit: parsed the same way; a missing or empty deposit string counts as "0". */
  function DepositOf(b: Booking): (r: int)
    ensures IsBoarding(b.property) && b.room.Some? ==> r == b.room.value.roomType.deposit.GetOr(0)
    ensures IsBoarding(b.property) && b.room.None? ==> r == 0
    ensures !IsBoarding(b.property) ==> r == b.property.deposit.GetOr(0)
  {
    if IsBoarding(b.property) then
      (if b.room.Some? then b.room.value.roomType.deposit.GetOr(0) else 0)
    else b.property.deposit.GetOr(0)
  }

  /** The room name for boarding houses, the unit code or unit name otherwise, "N/A" if empty. */
  function PropertyCodeOf(b: Booking): (r: string)
    ensures r != ""
    ensures IsBoarding(b.property) ==>
      r == (if b.room.Some? && b.room.value.name != "" then b.room.value.name else NotAvailable)
    ensures !IsBoarding(b.property) && b.property.unit.NoUnit? ==> r == NotAvailable
    ensures !IsBoarding(b.property) && b.property.unit.UnitCode? ==>
      r == (if b.property.unit.code != "" then b.property.unit.code else NotAvailable)
    ensures !IsBoarding(b.property) && b.property.unit.UnitRecord? ==>
      r == (if b.property.unit.name != "" then b.property.unit.name else NotAvailable)
  {
    if IsBoarding(b.property) then
      StringOr(if b.room.Some? then Some(b.room.value.name) else None, NotAvailable)
    else
      match b.property.unit
      case NoUnit => NotAvailable
      case UnitCode(code) => StringOr(Some(code), NotAvailable)
      case UnitRecord(name) => StringOr(Some(name), NotAvailable)
  }

  /** The furnishing label: the room type's for boarding houses, the
      property's otherwise, "Chưa có thông tin" when missing or empty. */
  function FurnishingOf(b: Booking): (r: string)
    ensures r != ""
    ensures var f := if IsBoarding(b.property)
                     then (if b.room.Some? then b.room.value.roomType.furnishing else None)
                     else b.property.furnishing;
            (f.Some? && f.value != "" ==> r == f.value) &&
            (f.None? || f.value == "" ==> r == NoFurnishingInfo)
  {
    if IsBoarding(b.property) then
      StringOr(if b.room.Some? then b.room.value.roomType.furnishing else None, NoFurnishingInfo)
    else StringOr(b.property.furnishing, NoFurnishingInfo)
  }

  /** `bookingToContract`: total and side-effect free. */
  function BookingToContract(b: Booking): (c: ContractVM)
    ensures c.status == DecideStatus(b.status, ContractStatusOf(b))
    ensures c.bookingId == b.id && c.bookingStatus == b.status
    ensures c.id == (if b.contract.Some? && b.contract.value.contractCode != "" then b.contract.value.contractCode else b.id)
    ensures c.contractId == (if b.contract.Some? then Some(b.contract.value.id) else None)
    ensures c.contractStatus == ContractStatusOf(b)
    ensures c.invoices == []
    ensures c.address == b.property.address + ", " + b.property.ward + ", " + b.property.province
    ensures c.category == (if b.property.kind == "APARTMENT" then "Chung cư" else "Nhà trọ")
    ensures c.propertyCode == PropertyCodeOf(b) && c.price == PriceOf(b) && c.deposit == DepositOf(b)
    ensures c.propertyType == FurnishingOf(b)
    ensures c.contractType == "Hợp đồng thuê nhà"
    ensures c.tenant == b.tenantName && c.landlord == b.property.landlordName
    ensures c.startDate == (if b.contract.Some? then b.contract.value.startDate else "")
    ensures c.endDate == (if b.contract.Some? then b.contract.value.endDate else "")
    ensures c.contractCode == (if b.contract.Some? then Some(b.contract.value.contractCode) else None)
  {
    var contract := b.contract;
    ContractVM(
      id := StringOr(if contract.Some? then Some(contract.value.contractCode) else None, b.id),
      bookingId := b.id,
      contractType := "Hợp đồng thuê nhà",
      tenant := b.tenantName,
      landlord := b.property.landlordName,
      startDate := StringOr(if contract.Some? then Some(contract.value.startDate) else None, ""),
      endDate := StringOr(if contract.Some? then Some(contract.value.endDate) else None, ""),
      address := b.property.address + ", " + b.property.ward + ", " + b.property.province,
      propertyCode := PropertyCodeOf(b),
      propertyType := FurnishingOf(b),
      category := if b.property.kind == "APARTMENT" then "Chung cư" else "Nhà trọ",
      price := PriceOf(b),
      deposit := DepositOf(b),
      status := DecideStatus(b.status, ContractStatusOf(b)),
      contractCode := if contract.Some? then Some(contract.value.contractCode) else None,
      contractId := if contract.Some? then Some(contract.value.id) else None,
      bookingStatus := b.status,
      contractStatus := ContractStatusOf(b),
      invoices := [])
  }

  /** Statuses outside the decision chain, such as REJECTED and
      SETTLEMENT_PENDING, fall back to `pending_landlord` whatever the contract says. */
  lemma UnlistedStatusesFallBack(b: Booking)
    requires b.status in {"REJECTED", "SETTLEMENT_PENDING", "PENDING_LANDLORD"}
    ensures BookingToContract(b).status == PendingLandlord
  {
  }

  /** Escrow asymmetry: the status names whose turn it is next, not who funded. */
  lemma EscrowAsymmetry(b: Booking)
    ensures b.status == "ESCROW_FUNDED_T" ==> BookingToContract(b).status == AwaitingLandlordDeposit
    ensures b.status == "ESCROW_FUNDED_L" ==> BookingToContract(b).status == AwaitingDeposit
  {
  }

  /** Without a nested contract, the contract-dependent rows take their "else" branch. */
  lemma NoContractDefaults(b: Booking)
    requires b.contract.None?
    ensures b.status == "PENDING_SIGNATURE" ==> BookingToContract(b).status == PendingSignature
    ensures b.status == "AWAITING_DEPOSIT" ==> BookingToContract(b).status == PendingSignature
    ensures BookingToContract(b).id == b.id
    ensures BookingToContract(b).startDate == "" && BookingToContract(b).endDate == ""
  {
  }

  /** A boarding booking whose room-type deposit string is "0" has deposit 0. */
  lemma ZeroDepositIsZero(b: Booking)
    requires IsBoarding(b.property) && b.room.Some? && b.room.value.roomType.deposit == Some(0)
    ensures BookingToContract(b).deposit == 0
  {
  }
}
