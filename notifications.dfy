/**
 * The notifications hook: the list held by the screen, the pending counter
 * derived from it, and the list updates applied after the server confirms a
 * change.  Server calls are inputs (their reply or what they threw).
 */
module Notifications {
  import opened Wrappers

  datatype NotificationStatus = Pending | Completed

  datatype Notification = Notification(
    id: string,
    kind: string,
    title: string,
    content: string,
    status: NotificationStatus,
    createdAt: string)

  /** A server call's settlement: a reply with its `code` (and, for the list,
      its `data` and `message`), or a thrown `Error` or other value. */
  datatype ListReply =
    | ListReplied(code: int, data: Option<seq<Notification>>, message: string)
    | ListThrewError(errorMessage: string)
    | ListThrewOther
  datatype CallReply = CallReplied(code: int) | CallThrewError(errorMessage: string) | CallThrewOther

  const LoadFailed := "Không thể tải thông báo"
  const UnexpectedFailure := "Đã xảy ra lỗi"
  const MarkFailed := "Không thể đánh dấu đã hoàn thành"
  const MarkAllFailed := "Không thể đánh dấu tất cả đã hoàn thành"
  const DeleteFailed := "Không thể xóa thông báo"

  /** `pendingCount`: the number of pending entries. */
  function PendingCount(ns: seq<Notification>): (c: nat)
    ensures c <= |ns|
    ensures c == 0 <==> forall i :: 0 <= i < |ns| ==> ns[i].status == Completed
    decreases |ns|
  {
    if ns == [] then 0
    else PendingCount(ns[..|ns| - 1]) + (if ns[|ns| - 1].status == Pending then 1 else 0)
  }

  /** The list after `markAsCompleted(id)` succeeded. */
  function MarkCompleted(ns: seq<Notification>, id: string): (r: seq<Notification>)
    ensures |r| == |ns|
    ensures forall i :: 0 <= i < |ns| && ns[i].id == id ==> r[i] == ns[i].(status := Completed)
    ensures forall i :: 0 <= i < |ns| && ns[i].id != id ==> r[i] == ns[i]
  {
    seq(|ns|, i requires 0 <= i < |ns| => if ns[i].id == id then ns[i].(status := Completed) else ns[i])
  }

  /** The list after `markAllAsCompleted()` succeeded. */
  function MarkAllCompleted(ns: seq<Notification>): (r: seq<Notification>)
    ensures |r| == |ns|
    ensures forall i :: 0 <= i < |ns| ==> r[i] == ns[i].(status := Completed)
  {
    seq(|ns|, i requires 0 <= i < |ns| => ns[i].(status := Completed))
  }

  /** The list after `deleteNotification(id)` succeeded. */
  function DeleteById(ns: seq<Notification>, id: string): (r: seq<Notification>)
    ensures |r| <= |ns|
    decreases |ns|
  {
    if ns == [] then []
    else DeleteById(ns[..|ns| - 1], id) + (if ns[|ns| - 1].id != id then [ns[|ns| - 1]] else [])
  }

  /** Deleting removes exactly the entries carrying `id`. */
  lemma {:induction false} DeleteMembership(ns: seq<Notification>, id: string, x: Notification)
    ensures x in DeleteById(ns, id) <==> x in ns && x.id != id
    decreases |ns|
  {
    if ns != [] {
      var init := ns[..|ns| - 1];
      var last := ns[|ns| - 1];
      DeleteMembership(init, id, x);
      assert ns == init + [last];
    }
  }

  /** Marking the same id twice changes nothing the second time. */
  lemma MarkCompletedIdempotent(ns: seq<Notification>, id: string)
    ensures MarkCompleted(MarkCompleted(ns, id), id) == MarkCompleted(ns, id)
  {
  }

  /** Marking all leaves nothing pending. */
  lemma MarkAllClearsPending(ns: seq<Notification>)
    ensures PendingCount(MarkAllCompleted(ns)) == 0
  {
  }

  /** Marking one id lowers the counter by the number of pending entries
      with that id and never raises it. */
  lemma {:induction false} MarkCompletedCount(ns: seq<Notification>, id: string)
    ensures PendingCount(MarkCompleted(ns, id)) == PendingCount(ns) - PendingWithId(ns, id)
    ensures PendingCount(MarkCompleted(ns, id)) <= PendingCount(ns)
    decreases |ns|
  {
    if ns != [] {
      var init := ns[..|ns| - 1];
      MarkCompletedCount(init, id);
      assert MarkCompleted(ns, id)[..|ns| - 1] == MarkCompleted(init, id);
    }
  }

  /** The number of pending entries carrying `id`. */
  function PendingWithId(ns: seq<Notification>, id: string): (c: nat)
    ensures c <= PendingCount(ns)
    decreases |ns|
  {
    if ns == [] then 0
    else PendingWithId(ns[..|ns| - 1], id) + (if ns[|ns| - 1].status == Pending && ns[|ns| - 1].id == id then 1 else 0)
  }

  /** Deleting keeps the other entries in their order: deleting from a
      concatenation deletes from each part. */
  lemma {:induction false} DeleteAppend(a: seq<Notification>, b: seq<Notification>, id: string)
    ensures DeleteById(a + b, id) == DeleteById(a, id) + DeleteById(b, id)
    decreases |b|
  {
    if b == [] {
      assert a + b == a;
    } else {
      var b' := b[..|b| - 1];
      assert (a + b)[..|a + b| - 1] == a + b';
      assert (a + b)[|a + b| - 1] == b[|b| - 1];
      DeleteAppend(a, b', id);
    }
  }

  /** Deleting the same id again changes nothing. */
  lemma {:induction false} DeleteIdempotent(ns: seq<Notification>, id: string)
    ensures DeleteById(DeleteById(ns, id), id) == DeleteById(ns, id)
    decreases |ns|
  {
    if ns != [] {
      var init := ns[..|ns| - 1];
      var last := ns[|ns| - 1];
      DeleteIdempotent(init, id);
      var tail := if last.id != id then [last] else [];
      DeleteAppend(DeleteById(init, id), tail, id);
      assert DeleteById(tail, id) == tail by {
        if tail != [] {
          assert tail[..0] == [];
        }
      }
    }
  }

  /** An entry whose id differs is unaffected by deleting `id`: a list
      without that id is returned unchanged. */
  lemma {:induction false} DeleteAbsent(ns: seq<Notification>, id: string)
    requires forall i :: 0 <= i < |ns| ==> ns[i].id != id
    ensures DeleteById(ns, id) == ns
    decreases |ns|
  {
    if ns != [] {
      var init := ns[..|ns| - 1];
      DeleteAbsent(init, id);
      assert ns[|ns| - 1].id != id;
      assert init + [ns[|ns| - 1]] == ns;
    }
  }

  /** The message stored when a call throws. */
  function ThrownMessage(threwError: bool, errorMessage: string, otherwise: string): (m: string)
    ensures threwError ==> m == errorMessage
    ensures !threwError ==> m == otherwise
  {
    if threwError then errorMessage else otherwise
  }

  /** The hook's state. */
  class NotificationsHook {
    const userId: Option<string>
    var notifications: seq<Notification>
    var loading: bool
    var error: Option<string>

    constructor (userId: Option<string>)
      ensures this.userId == userId
      ensures notifications == [] && !loading && error == None
    {
      this.userId := userId;
      notifications := [];
      loading := false;
      error := None;
    }

    /** `userId` is set and non-empty. */
    predicate HasUser()
    {
      userId.Some? && userId.value != ""
    }

    /** `fetchNotifications`: replace the list on a 200 reply with data;
        otherwise record why. */
    method FetchNotifications(reply: ListReply)
      modifies this`notifications, this`loading, this`error
      ensures !HasUser() ==>
        notifications == old(notifications) && loading == old(loading) && error == old(error)
      ensures HasUser() ==> !loading
      ensures HasUser() && reply.ListReplied? && reply.code == 200 && reply.data.Some? ==>
        notifications == reply.data.value && error == None
      ensures HasUser() && reply.ListReplied? && !(reply.code == 200 && reply.data.Some?) ==>
        notifications == old(notifications) &&
        error == Some(if reply.message != "" then reply.message else LoadFailed)
      ensures HasUser() && !reply.ListReplied? ==>
        notifications == old(notifications) &&
        error == Some(ThrownMessage(reply.ListThrewError?, if reply.ListThrewError? then reply.errorMessage else "", UnexpectedFailure))
    {
      if !HasUser() {
        return;
      }
      loading := true;
      error := None;
      match reply {
        case ListReplied(code, data, message) =>
          if code == 200 && data.Some? {
            notifications := data.value;
          } else {
            error := Some(if message != "" then message else LoadFailed);
          }
        case ListThrewError(msg) =>
          error := Some(msg);
        case ListThrewOther =>
          error := Some(UnexpectedFailure);
      }
      loading := false;
    }

    /** `markAsCompleted(id)`. */
    method MarkAsCompleted(id: string, reply: CallReply)
      modifies this`notifications, this`error
      ensures reply == CallReplied(200) ==> notifications == MarkCompleted(old(notifications), id) && error == old(error)
      ensures reply.CallReplied? && reply.code != 200 ==> notifications == old(notifications) && error == old(error)
      ensures !reply.CallReplied? ==> (notifications == old(notifications) &&
        error == Some(ThrownMessage(reply.CallThrewError?, if reply.CallThrewError? then reply.errorMessage else "", MarkFailed)))
    {
      match reply
      case CallReplied(code) =>
        if code == 200 {
          notifications := MarkCompleted(notifications, id);
        }
      case CallThrewError(msg) => error := Some(msg);
      case CallThrewOther => error := Some(MarkFailed);
    }

    /** `markAllAsCompleted()`. */
    method MarkAllAsCompleted(reply: CallReply)
      modifies this`notifications, this`error
      ensures !HasUser() ==> notifications == old(notifications) && error == old(error)
      ensures HasUser() && reply == CallReplied(200) ==>
        notifications == MarkAllCompleted(old(notifications)) && error == old(error)
      ensures HasUser() && reply.CallReplied? && reply.code != 200 ==> notifications == old(notifications) && error == old(error)
      ensures HasUser() && !reply.CallReplied? ==> (notifications == old(notifications) &&
        error == Some(ThrownMessage(reply.CallThrewError?, if reply.CallThrewError? then reply.errorMessage else "", MarkAllFailed)))
    {
      if !HasUser() {
        return;
      }
      match reply
      case CallReplied(code) =>
        if code == 200 {
          notifications := MarkAllCompleted(notifications);
        }
      case CallThrewError(msg) => error := Some(msg);
      case CallThrewOther => error := Some(MarkAllFailed);
    }

    /** `deleteNotification(id)`. */
    method DeleteNotification(id: string, reply: CallReply)
      modifies this`notifications, this`error
      ensures reply == CallReplied(200) ==> notifications == DeleteById(old(notifications), id) && error == old(error)
      ensures reply.CallReplied? && reply.code != 200 ==> notifications == old(notifications) && error == old(error)
      ensures !reply.CallReplied? ==> (notifications == old(notifications) &&
        error == Some(ThrownMessage(reply.CallThrewError?, if reply.CallThrewError? then reply.errorMessage else "", DeleteFailed)))
    {
      match reply
      case CallReplied(code) =>
        if code == 200 {
          notifications := DeleteById(notifications, id);
        }
      case CallThrewError(msg) => error := Some(msg);
      case CallThrewOther => error := Some(DeleteFailed);
    }
  }
}
