/**
 * The contract list hook: filter the tenant's bookings down to the ones that
 * have or are about to have a contract, project them onto contract views,
 * fetch invoices for active contracts one by one (a failure for one contract
 * does not abort the others) and attach them.
 */
module UseContracts {
  import opened Wrappers
  import opened ContractsMapper

  /** The signed-in user as far as the hook reads it. */
  datatype User = User(id: string, roles: Option<seq<string>>)

  /** Outcome of the per-contract invoice request. */
  datatype InvoiceFetch =
    | InvoiceReply(code: int, data: Option<seq<ContractInvoice>>)
    | InvoiceThrew

  /** Outcome of the bookings request. */
  datatype BookingsReply =
    | BookingsOk(code: int, data: Option<seq<Booking>>, message: Option<string>)
    | BookingsThrewError(errorMessage: string)   // an `Error` instance was thrown
    | BookingsThrewOther                         // anything else was thrown

  const LoadFailed := "Không thể tải danh sách hợp đồng"
  const UnexpectedFailure := "Đã xảy ra lỗi khi tải hợp đồng"

  /** The filter predicate: a contract is attached, or the booking is in one of
      the three pre-contract statuses. */
  predicate IsRelevant(b: Booking) {
    b.contract.Some? || b.status in {"PENDING_LANDLORD", "PENDING_SIGNATURE", "AWAITING_DEPOSIT"}
  }

  /** `bookings.filter(IsRelevant)`. */
  function RelevantBookings(bs: seq<Booking>): (r: seq<Booking>)
    ensures |r| <= |bs|
    ensures forall b :: b in r ==> b in bs && IsRelevant(b)
  {
    if bs == [] then []
    else if IsRelevant(bs[0]) then [bs[0]] + RelevantBookings(bs[1..])
    else RelevantBookings(bs[1..])
  }

  /** `relevant.map(bookingToContract)`. */
  function MapContracts(bs: seq<Booking>): (cs: seq<ContractVM>)
    ensures |cs| == |bs|
    ensures forall i :: 0 <= i < |bs| ==> cs[i] == BookingToContract(bs[i])
  {
    seq(|bs|, i requires 0 <= i < |bs| => BookingToContract(bs[i]))
  }

  /** A contract view selected for an invoice request. */
  predicate WantsInvoices(c: ContractVM) {
    c.status == ActiveStatus && c.contractId.Some? && c.contractId.value != ""
  }

  /** `contracts.filter(active && contractId).map(contractId)`. */
  function ActiveContractIds(cs: seq<ContractVM>): (ids: seq<string>)
    ensures |ids| <= |cs|
  {
    if cs == [] then []
    else if WantsInvoices(cs[0]) then [cs[0].contractId.value] + ActiveContractIds(cs[1..])
    else ActiveContractIds(cs[1..])
  }

  /** The per-contract request stored an invoice list in the map. */
  predicate FetchSucceeded(f: InvoiceFetch) {
    f.InvoiceReply? && f.code == 200 && f.data.Some?
  }

  /** The invoice map the per-contract requests build. */
  function InvoicesMap(ids: seq<string>, fetch: string -> InvoiceFetch): (m: map<string, seq<ContractInvoice>>)
    ensures forall id :: id in m <==> id in ids && FetchSucceeded(fetch(id))
  {
    map id | id in ids && FetchSucceeded(fetch(id)) :: fetch(id).data.value
  }

  /** `{...c, invoices: invoicesMap.get(c.contractId) || []}` for each contract. */
  function AttachInvoices(cs: seq<ContractVM>, m: map<string, seq<ContractInvoice>>): (r: seq<ContractVM>)
    ensures |r| == |cs|
    ensures forall i :: 0 <= i < |cs| ==> r[i] == cs[i].(invoices := InvoicesOf(cs[i], m))
  {
    seq(|cs|, i requires 0 <= i < |cs| => cs[i].(invoices := InvoicesOf(cs[i], m)))
  }

  function InvoicesOf(c: ContractVM, m: map<string, seq<ContractInvoice>>): seq<ContractInvoice> {
    if c.contractId.Some? && c.contractId.value in m then m[c.contractId.value] else []
  }

  /** The whole success path of `fetchContracts`. */
  function LoadedContracts(bs: seq<Booking>, fetch: string -> InvoiceFetch): seq<ContractVM> {
    var cs := MapContracts(RelevantBookings(bs));
    AttachInvoices(cs, InvoicesMap(ActiveContractIds(cs), fetch))
  }

  /** `user?.roles?.[0] || "TENANT"`. */
  function UserRole(user: Option<User>): (role: string)
    ensures role != ""
    ensures (user.Some? && user.value.roles.Some? && |user.value.roles.value| > 0
             && user.value.roles.value[0] != "") ==> role == user.value.roles.value[0]
    ensures (user.None? || user.value.roles.None? || user.value.roles.value == []) ==> role == "TENANT"
    ensures (user.Some? && user.value.roles.Some? && |user.value.roles.value| > 0
             && user.value.roles.value[0] == "") ==> role == "TENANT"
  {
    if user.Some? && user.value.roles.Some? && |user.value.roles.value| > 0 && user.value.roles.value[0] != ""
    then user.value.roles.value[0]
    else "TENANT"
  }

  /** The invoice loop: one request per selected contract id, storing the
      list only for a 200 reply with data; a thrown request is logged and skipped. */
  method CollectInvoices(ids: seq<string>, fetch: string -> InvoiceFetch)
    returns (m: map<string, seq<ContractInvoice>>)
    ensures m == InvoicesMap(ids, fetch)
  {
    m := map[];
    var i := 0;
    while i < |ids|
      invariant 0 <= i <= |ids|
      invariant m == InvoicesMap(ids[..i], fetch)
    {
      var reply := fetch(ids[i]);
      if reply.InvoiceReply? && reply.code == 200 && reply.data.Some? {
        m := m[ids[i] := reply.data.value];
      }
      assert ids[..i + 1] == ids[..i] + [ids[i]];
      i := i + 1;
    }
    assert ids[..i] == ids;
  }

  /** Membership of the filter is exactly the filter predicate. */
  lemma {:induction false} RelevantMembership(bs: seq<Booking>, b: Booking)
    ensures b in RelevantBookings(bs) <==> b in bs && IsRelevant(b)
  {
    if bs != [] {
      RelevantMembership(bs[1..], b);
      assert bs == [bs[0]] + bs[1..];
    }
  }

  /** The filter keeps order: it distributes over concatenation. */
  lemma {:induction false} RelevantAppend(a: seq<Booking>, b: seq<Booking>)
    ensures RelevantBookings(a + b) == RelevantBookings(a) + RelevantBookings(b)
  {
    if a == [] {
      assert a + b == b;
    } else {
      assert (a + b)[1..] == a[1..] + b;
      RelevantAppend(a[1..], b);
    }
  }

  /** A contract id is requested iff some contract view is active with that (non-empty) id. */
  lemma {:induction false} ActiveContractIdsMembership(cs: seq<ContractVM>, id: string)
    ensures id in ActiveContractIds(cs) <==>
      exists c :: c in cs && WantsInvoices(c) && c.contractId.value == id
  {
    if cs != [] {
      ActiveContractIdsMembership(cs[1..], id);
      assert cs == [cs[0]] + cs[1..];
      if WantsInvoices(cs[0]) && cs[0].contractId.value == id {
        assert cs[0] in cs;
      }
      if exists c :: c in cs && WantsInvoices(c) && c.contractId.value == id {
        var c :| c in cs && WantsInvoices(c) && c.contractId.value == id;
        if c != cs[0] {
          assert c in cs[1..];
        }
      }
    }
  }

  /** Every requested id belongs to an active contract: expired, pending or
      id-less contracts never trigger an invoice request. */
  lemma OnlyActiveContractsFetch(bs: seq<Booking>, id: string)
    requires id in ActiveContractIds(MapContracts(RelevantBookings(bs)))
    ensures exists b :: b in bs && b.contract.Some? && b.contract.value.id == id && id != ""
                        && b.status in {"ACTIVE", "DUAL_ESCROW_FUNDED"}
  {
    var rs := RelevantBookings(bs);
    var cs := MapContracts(rs);
    ActiveContractIdsMembership(cs, id);
    var c :| c in cs && WantsInvoices(c) && c.contractId.value == id;
    var b := ViewSource(rs, c);
    ActiveViewOfBooking(b);
    assert b in bs;
  }

  /** The booking a contract view was mapped from. */
  lemma ViewSource(rs: seq<Booking>, c: ContractVM) returns (b: Booking)
    requires c in MapContracts(rs)
    ensures b in rs && BookingToContract(b) == c
  {
    var cs := MapContracts(rs);
    var i :| 0 <= i < |cs| && cs[i] == c;
    b := rs[i];
  }

  /** The booking behind an active contract view with an id. */
  lemma ActiveViewOfBooking(b: Booking)
    requires WantsInvoices(BookingToContract(b))
    ensures b.contract.Some? && BookingToContract(b).contractId == Some(b.contract.value.id)
    ensures b.contract.value.id != "" && b.status in {"ACTIVE", "DUAL_ESCROW_FUNDED"}
  {
    var c := BookingToContract(b);
    assert c.status == DecideStatus(b.status, ContractStatusOf(b));
  }

  /** Attachment changes only `invoices`.  A contract gets the fetched list
      exactly when an active contract with its id was requested and that
      request succeeded; a failed request leaves it with an empty list and
      does not affect the other contracts. */
  lemma AttachedInvoices(cs: seq<ContractVM>, fetch: string -> InvoiceFetch, i: int)
    requires 0 <= i < |cs|
    ensures var r := AttachInvoices(cs, InvoicesMap(ActiveContractIds(cs), fetch));
            var c := cs[i];
            r[i] == c.(invoices := r[i].invoices) &&
            r[i].invoices ==
              if c.contractId.Some?
                 && (exists a :: a in cs && WantsInvoices(a) && a.contractId.value == c.contractId.value)
                 && FetchSucceeded(fetch(c.contractId.value))
              then fetch(c.contractId.value).data.value
              else []
  {
    if cs[i].contractId.Some? {
      ActiveContractIdsMembership(cs, cs[i].contractId.value);
    }
  }

  /** In particular an active contract with an id carries exactly what its
      own request returned, or nothing if the request failed. */
  lemma ActiveContractInvoices(cs: seq<ContractVM>, fetch: string -> InvoiceFetch, i: int)
    requires 0 <= i < |cs| && WantsInvoices(cs[i])
    ensures var r := AttachInvoices(cs, InvoicesMap(ActiveContractIds(cs), fetch));
            var f := fetch(cs[i].contractId.value);
            r[i].invoices == if FetchSucceeded(f) then f.data.value else []
  {
    AttachedInvoices(cs, fetch, i);
    assert cs[i] in cs;
  }

  /** The hook's state: the loaded contract views, the loading flag and the error text. */
  class ContractsHook {
    var contracts: seq<ContractVM>
    var loading: bool
    var error: Option<string>

    constructor ()
      ensures contracts == [] && loading && error == None
    {
      contracts := [];
      loading := true;
      error := None;
    }

    /** `fetchContracts`, with the two requests given as their outcomes. */
    method FetchContracts(user: Option<User>, reply: BookingsReply, fetch: string -> InvoiceFetch)
      modifies this
      ensures user.None? ==> contracts == old(contracts) && loading == old(loading) && error == old(error)
      ensures user.Some? ==> !loading
      ensures user.Some? && reply.BookingsOk? && reply.code == 200 && reply.data.Some? ==>
        contracts == LoadedContracts(reply.data.value, fetch) && error == None
      ensures user.Some? && reply.BookingsOk? && !(reply.code == 200 && reply.data.Some?) ==>
        contracts == old(contracts) && error == Some(StringOr(reply.message, LoadFailed))
      ensures user.Some? && reply.BookingsThrewError? ==>
        contracts == old(contracts) && error == Some(reply.errorMessage)
      ensures user.Some? && reply.BookingsThrewOther? ==>
        contracts == old(contracts) && error == Some(UnexpectedFailure)
    {
      if user.None? {
        return;
      }
      loading := true;
      error := None;
      match reply {
        case BookingsOk(code, data, message) =>
          if code == 200 && data.Some? {
            var mapped := MapContracts(RelevantBookings(data.value));
            var invoicesMap := CollectInvoices(ActiveContractIds(mapped), fetch);
            contracts := AttachInvoices(mapped, invoicesMap);
          } else {
            error := Some(StringOr(message, LoadFailed));
          }
        case BookingsThrewError(msg) =>
          error := Some(msg);
        case BookingsThrewOther =>
          error := Some(UnexpectedFailure);
      }
      loading := false;
    }
  }
}
