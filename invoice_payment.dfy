/**
 * The invoice payment modal: loading the invoice, the decision taken when
 * "Thanh toán" is pressed, the outcome of the payment request, the subtotal
 * line and the visibility of the payment sections.  Amounts are whole
 * numbers of dong.  The wallet balance is an input: the modal reads
 * `balance` from the wallet hook, which never supplies it.
 */
module InvoicePayment {
  import opened Wrappers
  import Wallet

  datatype InvoiceStatus = InvoicePending | Paid | Overdue

  datatype InvoiceItem = InvoiceItem(id: string, description: string, amount: int)

  datatype Invoice = Invoice(
    id: string,
    invoiceCode: string,
    items: seq<InvoiceItem>,
    totalAmount: int,
    status: InvoiceStatus)

  datatype PaymentMethod = WalletMethod | VnPay

  /** What pressing the pay button leads to. */
  datatype PaymentDecision =
    | NoAction                                     // no invoice loaded
    | InsufficientFunds                            // alert offering VNPAY instead
    | ConfirmWallet(current: int, after: int)      // confirmation alert, then payment
    | ProcessDirectly                              // VNPAY: payment request at once

  /** `!balance`: the balance is undefined or 0. */
  predicate Falsy(balance: Option<int>) {
    balance.None? || balance.value == 0
  }

  /** `handlePayment()`. */
  function HandlePayment(invoice: Option<Invoice>, pm: PaymentMethod, balance: Option<int>): (d: PaymentDecision)
    ensures invoice.None? ==> d == NoAction
    ensures invoice.Some? && pm == VnPay ==> d == ProcessDirectly
    ensures invoice.Some? && pm == WalletMethod ==>
      (d == InsufficientFunds <==> Falsy(balance) || balance.value < invoice.value.totalAmount)
    ensures d.ConfirmWallet? ==>
      pm == WalletMethod && invoice.Some? && balance.Some? &&
      d.current == balance.value && d.after == balance.value - invoice.value.totalAmount && d.after >= 0
  {
    if invoice.None? then NoAction
    else if pm == WalletMethod then
      if Falsy(balance) || balance.value < invoice.value.totalAmount then InsufficientFunds
      else ConfirmWallet(balance.value, balance.value - invoice.value.totalAmount)
    else ProcessDirectly
  }

  /** A wallet payment is only ever requested after a confirmation whose
      balance covers the invoice, and VNPAY never consults the balance. */
  lemma WalletNeedsCover(invoice: Invoice, balance: Option<int>, other: Option<int>)
    ensures HandlePayment(Some(invoice), WalletMethod, balance).ConfirmWallet? ==>
      balance.Some? && balance.value >= invoice.totalAmount && balance.value != 0
    ensures HandlePayment(Some(invoice), VnPay, balance) == HandlePayment(Some(invoice), VnPay, other)
  {
  }

  /** The "Số dư không đủ" hint under the wallet option:
      `balance && balance < totalAmount`. */
  function ShowsInsufficientHint(balance: Option<int>, totalAmount: int): (b: bool)
    ensures b <==> !Falsy(balance) && balance.value < totalAmount
  {
    !Falsy(balance) && balance.value < totalAmount
  }

  /** The hint is never shown for a wallet payment that would go ahead, but
      an undefined balance refuses the payment without showing it. */
  lemma HintImpliesRefusal(invoice: Invoice, balance: Option<int>)
    ensures ShowsInsufficientHint(balance, invoice.totalAmount) ==>
      HandlePayment(Some(invoice), WalletMethod, balance) == InsufficientFunds
    ensures balance.None? ==>
      !ShowsInsufficientHint(balance, invoice.totalAmount) &&
      HandlePayment(Some(invoice), WalletMethod, balance) == InsufficientFunds
  {
  }

  /** As written, the balance comes from the wallet hook, which has no
      `balance`, so a wallet payment is refused whatever the wallet holds. */
  lemma WalletPaymentAlwaysRefused(invoice: Invoice, hook: Wallet.WalletHook)
    ensures HandlePayment(Some(invoice), WalletMethod, Wallet.ScreenBalance(hook)) == InsufficientFunds
  {
  }

  /** With the wallet's available balance, a wallet holding at least the
      total (and more than nothing) reaches the confirmation. */
  lemma CorrectedBalanceConfirms(invoice: Invoice, hook: Wallet.WalletHook, available: int)
    requires hook.wallet == Some(available) && available >= invoice.totalAmount && available != 0
    ensures HandlePayment(Some(invoice), WalletMethod, Wallet.CorrectedBalance(hook)) ==
      ConfirmWallet(available, available - invoice.totalAmount)
  {
  }

  // ---------- subtotal ----------

  /** `items.reduce((sum, item) => sum + item.amount, 0)`. */
  function ItemsSum(items: seq<InvoiceItem>): int
    decreases |items|
  {
    if items == [] then 0 else ItemsSum(items[..|items| - 1]) + items[|items| - 1].amount
  }

  /** The sum of a concatenation is the sum of the parts. */
  lemma {:induction false} ItemsSumAppend(a: seq<InvoiceItem>, b: seq<InvoiceItem>)
    ensures ItemsSum(a + b) == ItemsSum(a) + ItemsSum(b)
    decreases |b|
  {
    if b == [] {
      assert a + b == a;
    } else {
      var b' := b[..|b| - 1];
      assert (a + b)[..|a + b| - 1] == a + b';
      ItemsSumAppend(a, b');
    }
  }

  /** With no negative amounts, every item is at most the sum. */
  lemma {:induction false} ItemsSumBounds(items: seq<InvoiceItem>, k: int)
    requires forall i :: 0 <= i < |items| ==> items[i].amount >= 0
    requires 0 <= k < |items|
    ensures 0 <= items[k].amount <= ItemsSum(items)
    decreases |items|
  {
    if k < |items| - 1 {
      ItemsSumBounds(items[..|items| - 1], k);
    }
    ItemsSumNonNegative(items[..|items| - 1]);
  }

  lemma {:induction false} ItemsSumNonNegative(items: seq<InvoiceItem>)
    requires forall i :: 0 <= i < |items| ==> items[i].amount >= 0
    ensures ItemsSum(items) >= 0
    decreases |items|
  {
    if items != [] {
      ItemsSumNonNegative(items[..|items| - 1]);
    }
  }

  /** The "Tạm tính" line: shown only for more than one item, with the sum
      of the item amounts. */
  function Subtotal(invoice: Invoice): (r: Option<int>)
    ensures r.Some? <==> |invoice.items| > 1
    ensures r.Some? ==> r.value == ItemsSum(invoice.items)
  {
    if |invoice.items| > 1 then Some(ItemsSum(invoice.items)) else None
  }

  /** The subtotal of two items is their sum. */
  lemma SubtotalOfTwo(invoice: Invoice)
    requires |invoice.items| == 2
    ensures Subtotal(invoice) == Some(invoice.items[0].amount + invoice.items[1].amount)
  {
    var items := invoice.items;
    assert items[..1][..0] == [];
    assert ItemsSum(items[..1]) == items[0].amount;
  }

  // ---------- visibility ----------

  /** The payment-method section: hidden for a paid invoice. */
  function ShowsPaymentMethods(invoice: Invoice): (b: bool)
    ensures b <==> invoice.status != Paid
  {
    invoice.status != Paid
  }

  /** The cancel/pay buttons: shown for a loaded invoice that is not paid. */
  function ShowsActions(invoice: Option<Invoice>): (b: bool)
    ensures b <==> invoice.Some? && invoice.value.status != Paid
  {
    invoice.Some? && invoice.value.status != Paid
  }

  /** A paid invoice offers no way to pay it again; any other loaded invoice
      offers both the methods and the buttons. */
  lemma PaidHidesPayment(invoice: Invoice)
    ensures invoice.status == Paid <==> !ShowsPaymentMethods(invoice) && !ShowsActions(Some(invoice))
    ensures !ShowsActions(None)
  {
  }

  // ---------- loading and paying ----------

  datatype InvoiceReply =
    | InvoiceReplied(code: int, data: Option<Invoice>, message: string)
    | InvoiceThrew(errorMessage: string)

  const LoadFailed := "Không thể tải thông tin hóa đơn"

  /** The payment service's settlement: a reply (with whether `data` is set
      and its `paymentUrl`), or a thrown value with its `message` and
      `code`. */
  datatype PaymentReply =
    | PaymentReplied(code: int, hasData: bool, paymentUrl: Option<string>, message: string)
    | PaymentThrew(message: string, errorCode: string)

  datatype PaymentResult =
    | WalletPaid(amount: int)
    | VnPayRedirect(url: string)
    | VnPayNoUrl
    | PaymentFailed(message: string, errorCode: string)

  const PaymentRejected := "Thanh toán thất bại"
  const RetryLater := "Vui lòng thử lại sau hoặc liên hệ hỗ trợ."
  const UnknownCode := "UNKNOWN"

  /** `processPayment()` for a loaded invoice: a 200 reply with data is a
      success by the chosen method; any other reply becomes an `Error` with
      the reply's message (no code); a thrown value shows its own message
      and code, with defaults for empty ones. */
  function PaymentOutcome(invoice: Invoice, pm: PaymentMethod, reply: PaymentReply): (r: PaymentResult)
    ensures r.WalletPaid? <==> pm == WalletMethod && reply.PaymentReplied? && reply.code == 200 && reply.hasData
    ensures r.WalletPaid? ==> r.amount == invoice.totalAmount
    ensures r.VnPayRedirect? ==> pm.VnPay?
    ensures r.VnPayRedirect? ==> reply.PaymentReplied? && reply.paymentUrl == Some(r.url)
    ensures r.VnPayRedirect? ==> r.url != ""
    ensures pm.VnPay? && reply.PaymentReplied? && reply.code == 200 && reply.hasData ==>
      r == (if reply.paymentUrl.Some? && reply.paymentUrl.value != "" then VnPayRedirect(reply.paymentUrl.value)
            else VnPayNoUrl)
    ensures reply.PaymentReplied? && !(reply.code == 200 && reply.hasData) ==>
      r == PaymentFailed(if reply.message != "" then reply.message else PaymentRejected, UnknownCode)
    ensures reply.PaymentThrew? ==>
      r == PaymentFailed(if reply.message != "" then reply.message else RetryLater,
                         if reply.errorCode != "" then reply.errorCode else UnknownCode)
  {
    if reply.PaymentThrew? then
      PaymentFailed(if reply.message != "" then reply.message else RetryLater,
                    if reply.errorCode != "" then reply.errorCode else UnknownCode)
    else if !(reply.code == 200 && reply.hasData) then
      PaymentFailed(if reply.message != "" then reply.message else PaymentRejected, UnknownCode)
    else if pm == WalletMethod then WalletPaid(invoice.totalAmount)
    else if reply.paymentUrl.Some? && reply.paymentUrl.value != "" then VnPayRedirect(reply.paymentUrl.value)
    else VnPayNoUrl
  }

  /** The modal's state. */
  class InvoiceModal {
    var invoice: Option<Invoice>
    var loading: bool
    var paymentLoading: bool
    var selectedMethod: PaymentMethod

    constructor ()
      ensures invoice == None && !loading && !paymentLoading && selectedMethod == WalletMethod
    {
      invoice := None;
      loading := false;
      paymentLoading := false;
      selectedMethod := WalletMethod;
    }

    /** `loadInvoiceDetail()`: stores the invoice on a 200 reply with data;
        otherwise alerts and closes the modal, keeping what was loaded. */
    method LoadInvoiceDetail(reply: InvoiceReply) returns (closedWith: Option<string>)
      modifies this`invoice, this`loading
      ensures !loading
      ensures reply.InvoiceReplied? && reply.code == 200 && reply.data.Some? ==>
        invoice == reply.data && closedWith == None
      ensures reply.InvoiceReplied? && !(reply.code == 200 && reply.data.Some?) ==>
        invoice == old(invoice) && closedWith == Some(if reply.message != "" then reply.message else LoadFailed)
      ensures reply.InvoiceThrew? ==>
        invoice == old(invoice) && closedWith == Some(if reply.errorMessage != "" then reply.errorMessage else LoadFailed)
    {
      loading := true;
      closedWith := None;
      match reply {
        case InvoiceReplied(code, data, message) =>
          if code == 200 && data.Some? {
            invoice := data;
          } else {
            closedWith := Some(if message != "" then message else LoadFailed);
          }
        case InvoiceThrew(msg) =>
          closedWith := Some(if msg != "" then msg else LoadFailed);
      }
      loading := false;
    }

    /** Picking a method, or "Chọn VNPAY" in the insufficient-funds alert. */
    method SelectMethod(m: PaymentMethod)
      modifies this`selectedMethod
      ensures selectedMethod == m
    {
      selectedMethod := m;
    }

    /** Pressing the pay button: the decision for the current state. */
    method Pay(balance: Option<int>) returns (d: PaymentDecision)
      ensures d == HandlePayment(invoice, selectedMethod, balance)
      ensures d == InsufficientFunds ==> selectedMethod == WalletMethod
    {
      if invoice.None? {
        return NoAction;
      }
      if selectedMethod == WalletMethod {
        if Falsy(balance) || balance.value < invoice.value.totalAmount {
          d := InsufficientFunds;
        } else {
          d := ConfirmWallet(balance.value, balance.value - invoice.value.totalAmount);
        }
      } else {
        d := ProcessDirectly;
      }
    }

    /** `processPayment()`: nothing without an invoice; otherwise the
        outcome of the request, with the spinner off afterwards. */
    method ProcessPayment(reply: PaymentReply) returns (r: Option<PaymentResult>)
      modifies this`paymentLoading
      ensures invoice.None? ==> r == None && paymentLoading == old(paymentLoading)
      ensures invoice.Some? ==> r == Some(PaymentOutcome(invoice.value, selectedMethod, reply)) && !paymentLoading
    {
      if invoice.None? {
        return None;
      }
      paymentLoading := true;
      r := Some(PaymentOutcome(invoice.value, selectedMethod, reply));
      paymentLoading := false;
    }
  }

  /** After "Chọn VNPAY" the same invoice proceeds without a balance check. */
  lemma SwitchToVnPayProceeds(invoice: Invoice, balance: Option<int>)
    ensures HandlePayment(Some(invoice), WalletMethod, None) == InsufficientFunds
    ensures HandlePayment(Some(invoice), VnPay, balance) == ProcessDirectly
  {
  }
}
