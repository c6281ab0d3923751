/**
 * The wallet screen: the transaction history sorted newest first, the
 * case-insensitive mappings from transaction type and status to icon,
 * colour and label, the sign shown before an amount, and the error view.
 * The wallet hook supplies `wallet`, `loading`, `error` and `refetch`; the
 * screen reads `balance` and `refreshBalance` from it, which it does not
 * supply.
 */
module Wallet {
  import opened Wrappers
  import opened Js

  /** A date string and the time value the engine parses it to. */
  datatype Stamp = Stamp(text: string, ms: int)

  datatype Transaction = Transaction(
    id: string,
    direction: string,       // "CREDIT" | "DEBIT"
    kind: Option<string>,    // `type`: "TOPUP" | "CONTRACT_PAYMENT" | "REFUND"
    amount: int,
    status: Option<string>,
    completedAt: Option<Stamp>,
    createdAt: Stamp)

  /** `new Date(t.completedAt || t.createdAt).getTime()`. */
  function SortTime(t: Transaction): int {
    if t.completedAt.Some? && t.completedAt.value.text != "" then t.completedAt.value.ms else t.createdAt.ms
  }

  /** Newest first: no transaction is followed by a later one. */
  predicate NewestFirst(s: seq<Transaction>) {
    forall p, q :: 0 <= p < q < |s| ==> SortTime(s[p]) >= SortTime(s[q])
  }

  /** `response.data.sort((a, b) => timeB - timeA)`, in place. */
  method SortNewestFirst(a: array<Transaction>)
    modifies a
    ensures NewestFirst(a[..])
    ensures multiset(a[..]) == multiset(old(a[..]))
  {
    var i := 0;
    while i < a.Length
      invariant 0 <= i <= a.Length
      invariant NewestFirst(a[..i])
      invariant multiset(a[..]) == multiset(old(a[..]))
    {
      InsertAt(a, i);
      i := i + 1;
    }
    assert a[..a.Length] == a[..];
  }

  /** Ordered on `[0, n]` apart from position `j`, which is newer than
      everything after it. */
  predicate SortedAround(s: seq<Transaction>, j: int, n: int)
    requires 0 <= j <= n < |s|
  {
    (forall p, q :: 0 <= p < q <= n && p != j && q != j ==> SortTime(s[p]) >= SortTime(s[q])) &&
    (forall q :: j < q <= n ==> SortTime(s[j]) > SortTime(s[q])) &&
    (forall p, q :: 0 <= p < j < q <= n ==> SortTime(s[p]) >= SortTime(s[q]))
  }

  /** `s` with positions `j - 1` and `j` exchanged. */
  function Swapped(s: seq<Transaction>, j: int): (r: seq<Transaction>)
    requires 0 < j < |s|
    ensures |r| == |s| && r[j - 1] == s[j] && r[j] == s[j - 1]
    ensures forall k :: 0 <= k < |s| && k != j - 1 && k != j ==> r[k] == s[k]
  {
    s[j - 1 := s[j]][j := s[j - 1]]
  }

  /** Exchanging two neighbours keeps the same transactions. */
  lemma SwapKeepsElements(s: seq<Transaction>, j: int)
    requires 0 < j < |s|
    ensures multiset(Swapped(s, j)) == multiset(s)
  {
  }

  /** Swapping the moving transaction with an older one before it moves
      the gap one place left. */
  lemma SwapKeepsSortedAround(s: seq<Transaction>, j: int, n: int)
    requires 0 < j <= n < |s| && SortedAround(s, j, n)
    requires SortTime(s[j - 1]) < SortTime(s[j])
    ensures SortedAround(Swapped(s, j), j - 1, n)
  {
  }

  /** Once the moving transaction is not newer than its left neighbour, the
      prefix is ordered. */
  lemma SettledIsSorted(s: seq<Transaction>, j: int, n: int)
    requires 0 <= j <= n < |s| && SortedAround(s, j, n)
    requires j == 0 || SortTime(s[j - 1]) >= SortTime(s[j])
    ensures NewestFirst(s[..n + 1])
  {
    forall p, q | 0 <= p < q <= n
      ensures SortTime(s[p]) >= SortTime(s[q])
    {
      if p == j - 1 && q != j {
        assert SortTime(s[j]) > SortTime(s[q]) || q == j;
      }
    }
  }

  /** Moves `a[i]` left past every older transaction, so that `a[..i + 1]`
      is newest first. */
  method InsertAt(a: array<Transaction>, i: int)
    requires 0 <= i < a.Length && NewestFirst(a[..i])
    modifies a
    ensures NewestFirst(a[..i + 1])
    ensures multiset(a[..]) == multiset(old(a[..]))
  {
    var j := i;
    assert SortedAround(a[..], j, i);
    while j > 0 && SortTime(a[j - 1]) < SortTime(a[j])
      invariant 0 <= j <= i
      invariant SortedAround(a[..], j, i)
      invariant multiset(a[..]) == multiset(old(a[..]))
    {
      ghost var before := a[..];
      SwapKeepsSortedAround(before, j, i);
      SwapKeepsElements(before, j);
      a[j - 1], a[j] := a[j], a[j - 1];
      assert a[..] == Swapped(before, j);
      j := j - 1;
    }
    SettledIsSorted(a[..], j, i);
  }

  /** A list sorted newest first starts with its newest transaction. */
  lemma NewestIsFirst(s: seq<Transaction>, k: int)
    requires NewestFirst(s) && 0 <= k < |s|
    ensures SortTime(s[0]) >= SortTime(s[k])
  {
    if k > 0 {
      assert SortTime(s[0]) >= SortTime(s[k]);
    }
  }

  // ---------- mappings ----------

  /** `x?.toLowerCase()`. */
  function LowerOpt(s: Option<string>): (r: Option<string>)
    ensures s.None? <==> r.None?
    ensures s.Some? ==> r.value == Lower(s.value)
  {
    if s.Some? then Some(Lower(s.value)) else None
  }

  const Green := "#4CAF50"
  const Red := "#F44336"
  const Orange := "#FF9800"
  const Grey := "#757575"

  /** `getTransactionIcon(type)`. */
  function TransactionIcon(kind: Option<string>): (icon: string)
    ensures LowerOpt(kind) == Some("deposit") <==> icon == "add-circle"
    ensures LowerOpt(kind) == Some("withdraw") <==> icon == "remove-circle"
    ensures LowerOpt(kind) == Some("payment") <==> icon == "payment"
    ensures LowerOpt(kind) == Some("refund") <==> icon == "refresh"
    ensures LowerOpt(kind) !in {Some("deposit"), Some("withdraw"), Some("payment"), Some("refund")} <==>
      icon == "account-balance-wallet"
  {
    match LowerOpt(kind)
    case Some("deposit") => "add-circle"
    case Some("withdraw") => "remove-circle"
    case Some("payment") => "payment"
    case Some("refund") => "refresh"
    case _ => "account-balance-wallet"
  }

  /** `getTransactionColor(type)`. */
  function TransactionColor(kind: Option<string>): (color: string)
    ensures color == Green <==> LowerOpt(kind) in {Some("deposit"), Some("refund")}
    ensures color == Red <==> LowerOpt(kind) in {Some("withdraw"), Some("payment")}
    ensures color == Green || color == Red || color == Grey
  {
    match LowerOpt(kind)
    case Some("deposit") => Green
    case Some("refund") => Green
    case Some("withdraw") => Red
    case Some("payment") => Red
    case _ => Grey
  }

  /** `getStatusColor(status)`. */
  function StatusColor(status: Option<string>): (color: string)
    ensures color == Green <==> LowerOpt(status) in {Some("completed"), Some("success")}
    ensures color == Orange <==> LowerOpt(status) == Some("pending")
    ensures color == Red <==> LowerOpt(status) in {Some("failed"), Some("cancelled")}
    ensures color in {Green, Orange, Red, Grey}
  {
    match LowerOpt(status)
    case Some("completed") => Green
    case Some("success") => Green
    case Some("pending") => Orange
    case Some("failed") => Red
    case Some("cancelled") => Red
    case _ => Grey
  }

  /** `getStatusText(status)`: a fixed label, or the status unchanged. */
  function StatusText(status: Option<string>): (text: Option<string>)
    ensures LowerOpt(status) in {Some("completed"), Some("success")} ==> text == Some("Thành công")
    ensures LowerOpt(status) == Some("pending") ==> text == Some("Đang xử lý")
    ensures LowerOpt(status) == Some("failed") ==> text == Some("Thất bại")
    ensures LowerOpt(status) == Some("cancelled") ==> text == Some("Đã hủy")
    ensures LowerOpt(status) !in {Some("completed"), Some("success"), Some("pending"), Some("failed"), Some("cancelled")} ==>
      text == status
  {
    match LowerOpt(status)
    case Some("completed") => Some("Thành công")
    case Some("success") => Some("Thành công")
    case Some("pending") => Some("Đang xử lý")
    case Some("failed") => Some("Thất bại")
    case Some("cancelled") => Some("Đã hủy")
    case _ => status
  }

  /** The backend's statuses all get a fixed label; its upper-case
      "COMPLETED" is shown as a success. */
  lemma BackendStatusesLabelled()
    ensures StatusText(Some("COMPLETED")) == Some("Thành công")
    ensures StatusText(Some("PENDING")) == Some("Đang xử lý")
    ensures StatusText(Some("FAILED")) == Some("Thất bại")
  {
    assert Lower("COMPLETED") == "completed";
    assert Lower("PENDING") == "pending";
    assert Lower("FAILED") == "failed";
  }

  // ---------- amount sign ----------

  /** The sign as written: "-" for a withdraw or payment type, else "+". */
  function AmountSign(kind: Option<string>): (sign: string)
    ensures sign == "-" <==> LowerOpt(kind) in {Some("withdraw"), Some("payment")}
    ensures sign == "-" || sign == "+"
  {
    if LowerOpt(kind) == Some("withdraw") || LowerOpt(kind) == Some("payment") then "-" else "+"
  }

  /** The transaction types the backend sends never get a "-": a debited
      contract payment is shown as an income. */
  lemma BackendTypesNeverNegative(t: Transaction)
    requires t.kind in {Some("TOPUP"), Some("CONTRACT_PAYMENT"), Some("REFUND")}
    ensures AmountSign(t.kind) == "+"
    ensures t.kind == Some("CONTRACT_PAYMENT") && t.direction == "DEBIT" ==> AmountSign(t.kind) == "+"
  {
    var k := t.kind.value;
    if k == "TOPUP" {
      assert Lower(k)[0] == 't';
    } else if k == "CONTRACT_PAYMENT" {
      assert |Lower(k)| == 16;
    } else {
      assert Lower(k)[0] == 'r';
    }
  }

  /** The sign by the transaction's direction: money leaving the wallet is
      shown with "-". */
  function AmountSignByDirection(t: Transaction): (sign: string)
    ensures sign == "-" <==> t.direction == "DEBIT"
    ensures sign == "-" || sign == "+"
  {
    if t.direction == "DEBIT" then "-" else "+"
  }

  /** With the direction-based sign, a debited contract payment is shown as
      an expense and a top-up as an income. */
  lemma DirectionSignDistinguishes(t: Transaction)
    ensures t.direction == "DEBIT" ==> AmountSignByDirection(t) == "-"
    ensures t.direction == "CREDIT" ==> AmountSignByDirection(t) == "+"
  {
  }

  // ---------- balance and refresh ----------

  /** The members the wallet hook returns. */
  datatype WalletHook = WalletHook(
    wallet: Option<int>,            // `wallet?.availableBalance`
    loading: bool,
    error: Option<string>,
    hasRefetch: bool)

  /** What the screen destructures: `balance` and `refreshBalance` are not
      among the hook's members, so they are `undefined`. */
  function ScreenBalance(hook: WalletHook): (balance: Option<int>)
    ensures balance.None?
  {
    None
  }

  /** `balance || 0`, the amount on the balance card. */
  function ShownBalance(balance: Option<int>): (shown: int)
    ensures balance.Some? ==> shown == balance.value
    ensures balance.None? ==> shown == 0
  {
    balance.GetOr(0)
  }

  /** The balance card always shows 0, whatever the wallet holds. */
  lemma BalanceCardShowsZero(hook: WalletHook)
    ensures ShownBalance(ScreenBalance(hook)) == 0
  {
  }

  /** The corrected balance: the wallet's available balance. */
  function CorrectedBalance(hook: WalletHook): (balance: Option<int>)
    ensures balance == hook.wallet
  {
    hook.wallet
  }

  lemma CorrectedBalanceShown(hook: WalletHook, available: int)
    requires hook.wallet == Some(available)
    ensures ShownBalance(CorrectedBalance(hook)) == available
  {
  }

  /** Which fetches `onRefresh` starts: `Promise.all([refreshBalance(),
      refreshTransactions()])` calls `refreshBalance` first; when it is
      `undefined` the call throws before the transactions are refetched, and
      the `catch` swallows it. */
  datatype RefreshEffect = RefreshEffect(walletRefetched: bool, transactionsRefetched: bool)

  /** Whether the `refreshBalance` the screen destructures is a function:
      the hook returns no such member. */
  function ScreenRefreshBalance(hook: WalletHook): (defined: bool)
    ensures !defined
  {
    false
  }

  function OnRefresh(refreshBalanceDefined: bool): (e: RefreshEffect)
    ensures !refreshBalanceDefined ==> !e.walletRefetched && !e.transactionsRefetched
    ensures refreshBalanceDefined ==> e.walletRefetched && e.transactionsRefetched
  {
    if refreshBalanceDefined then RefreshEffect(true, true) else RefreshEffect(false, false)
  }

  /** Because the hook has no `refreshBalance`, pull-to-refresh and the
      retry button refetch nothing. */
  lemma RefreshRefetchesNothing(hook: WalletHook)
    ensures OnRefresh(ScreenRefreshBalance(hook)) == RefreshEffect(false, false)
  {
  }

  /** The corrected refresh calls the hook's `refetch` and the transaction
      fetch. */
  function OnRefreshCorrected(hook: WalletHook): (e: RefreshEffect)
    ensures hook.hasRefetch ==> e.walletRefetched && e.transactionsRefetched
  {
    RefreshEffect(hook.hasRefetch, true)
  }

  // ---------- screen state ----------

  /** The error view replaces the screen when either error is set. */
  function ShowErrorView(balanceError: Option<string>, transactionsError: Option<string>): (b: bool)
    ensures b <==> (balanceError.Some? && balanceError.value != "") || (transactionsError.Some? && transactionsError.value != "")
  {
    (balanceError.Some? && balanceError.value != "") || (transactionsError.Some? && transactionsError.value != "")
  }

  datatype HistoryReply =
    | HistoryReplied(code: int, data: Option<seq<Transaction>>, message: string)
    | HistoryThrewError(errorMessage: string)
    | HistoryThrewOther

  const HistoryFailed := "Không thể tải lịch sử giao dịch"
  const HistoryUnexpected := "Đã xảy ra lỗi khi tải lịch sử giao dịch"

  class WalletScreen {
    var transactions: seq<Transaction>
    var transactionsLoading: bool
    var transactionsError: Option<string>

    constructor ()
      ensures transactions == [] && !transactionsLoading && transactionsError == None
    {
      transactions := [];
      transactionsLoading := false;
      transactionsError := None;
    }

    /** `fetchTransactions()`: on a 200 reply with data, the list sorted
        newest first; otherwise the error text. */
    method FetchTransactions(reply: HistoryReply)
      modifies this`transactions, this`transactionsLoading, this`transactionsError
      ensures !transactionsLoading
      ensures reply.HistoryReplied? && reply.code == 200 && reply.data.Some? ==>
        NewestFirst(transactions) && multiset(transactions) == multiset(reply.data.value) &&
        transactionsError == None
      ensures reply.HistoryReplied? && !(reply.code == 200 && reply.data.Some?) ==>
        transactions == old(transactions) &&
        transactionsError == Some(if reply.message != "" then reply.message else HistoryFailed)
      ensures reply.HistoryThrewError? ==> transactions == old(transactions) && transactionsError == Some(reply.errorMessage)
      ensures reply.HistoryThrewOther? ==> transactions == old(transactions) && transactionsError == Some(HistoryUnexpected)
      // What the screen then shows, when the balance has no error: the list
      // after a successful reply, the error view after any failure except a
      // thrown error whose message is empty, which leaves the list view up.
      ensures reply.HistoryReplied? && reply.code == 200 && reply.data.Some? ==>
        !ShowErrorView(None, transactionsError)
      ensures !(reply.HistoryReplied? && reply.code == 200 && reply.data.Some?) ==>
        (ShowErrorView(None, transactionsError) <==> !(reply.HistoryThrewError? && reply.errorMessage == ""))
    {
      transactionsLoading := true;
      transactionsError := None;
      match reply {
        case HistoryReplied(code, data, message) =>
          if code == 200 && data.Some? {
            var d := data.value;
            var a := new Transaction[|d|](i requires 0 <= i < |d| => d[i]);
            assert a[..] == d;
            SortNewestFirst(a);
            transactions := a[..];
          } else {
            transactionsError := Some(if message != "" then message else HistoryFailed);
          }
        case HistoryThrewError(msg) =>
          transactionsError := Some(msg);
        case HistoryThrewOther =>
          transactionsError := Some(HistoryUnexpected);
      }
      transactionsLoading := false;
    }
  }
}
