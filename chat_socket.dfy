/**
 * The chat socket manager: one optional socket with a `connected` flag, an
 * `isConnecting` guard and five handler sets.  The transport is modelled by
 * the events it delivers (one method per event) and by an append-only log of
 * what the client emitted; handlers are opaque identifiers and every handler
 * call is recorded in an append-only invocation log.
 */
module ChatSocket {
  import opened Wrappers

  /** A registered callback; JavaScript compares functions by identity. */
  datatype HandlerId = HandlerId(id: nat)

  datatype UserTypingInfo = UserTypingInfo(userId: string, fullName: string, isTyping: bool, timestamp: int)

  datatype SocketMessage = SocketMessage(id: string, chatroomId: string, senderId: string, content: string, createdAt: string)

  datatype SendMessagePayload = SendMessagePayload(chatroomId: string, content: string, id: Option<string>)

  /** What the client sends over the socket. */
  datatype Payload =
    | RoomPayload(chatroomId: string)
    | MessagePayload(message: SendMessagePayload)
    | TypingPayload(chatroomId: string, isTyping: bool)
    | NoPayload

  datatype Emit = Emit(event: string, payload: Payload)

  /** What a handler is called with. */
  datatype HandlerEvent =
    | Connected
    | Disconnected
    | Failed(error: string)
    | Message(message: SocketMessage)
    | Typing(info: UserTypingInfo)

  /** One call of a registered handler. */
  datatype Invocation = Invocation(handler: HandlerId, event: HandlerEvent)

  datatype HandlerKind = MessageKind | TypingKind | ErrorKind | ConnectKind | DisconnectKind

  /** The event sent to typing handlers when nobody is typing. */
  function BlankTyping(now: int): (u: UserTypingInfo)
    ensures u.userId == "" && u.fullName == "" && !u.isTyping
  {
    UserTypingInfo("", "", false, now)
  }

  // ---------- handler sets: duplicate-free sequences in insertion order ----------

  predicate NoDup(s: seq<HandlerId>) {
    forall i, j :: 0 <= i < j < |s| ==> s[i] != s[j]
  }

  /** `set.add(h)`. */
  function SetAdd(s: seq<HandlerId>, h: HandlerId): (r: seq<HandlerId>)
    ensures h in r
    ensures forall x :: x in r <==> x in s || x == h
    ensures NoDup(s) ==> NoDup(r)
  {
    if h in s then s else s + [h]
  }

  /** `set.delete(h)`. */
  function SetRemove(s: seq<HandlerId>, h: HandlerId): (r: seq<HandlerId>)
    ensures forall x :: x in r <==> x in s && x != h
    ensures |r| <= |s|
  {
    if s == [] then []
    else if s[0] == h then SetRemove(s[1..], h)
    else [s[0]] + SetRemove(s[1..], h)
  }

  /** Deleting keeps the set duplicate-free. */
  lemma {:induction false} SetRemoveNoDup(s: seq<HandlerId>, h: HandlerId)
    requires NoDup(s)
    ensures NoDup(SetRemove(s, h))
  {
    if s != [] {
      SetRemoveNoDup(s[1..], h);
      if s[0] != h {
        assert s[0] !in s[1..];
      }
    }
  }

  /** Registering the same handler twice stores it once. */
  lemma SetAddIdempotent(s: seq<HandlerId>, h: HandlerId)
    ensures SetAdd(SetAdd(s, h), h) == SetAdd(s, h)
  {
  }

  /** Removing a handler that is not registered changes nothing. */
  lemma {:induction false} SetRemoveAbsent(s: seq<HandlerId>, h: HandlerId)
    requires h !in s
    ensures SetRemove(s, h) == s
  {
    if s != [] {
      assert s == [s[0]] + s[1..];
      SetRemoveAbsent(s[1..], h);
    }
  }

  /** Subscribe followed by its unsubscribe restores the set exactly, when
      the handler was not registered before. */
  lemma SubscribeUnsubscribe(s: seq<HandlerId>, h: HandlerId)
    requires h !in s
    ensures SetRemove(SetAdd(s, h), h) == s
  {
    SetRemoveAppend(s, [h], h);
    SetRemoveAbsent(s, h);
  }

  lemma {:induction false} SetRemoveAppend(a: seq<HandlerId>, b: seq<HandlerId>, h: HandlerId)
    ensures SetRemove(a + b, h) == SetRemove(a, h) + SetRemove(b, h)
  {
    if a == [] {
      assert a + b == b;
    } else {
      assert (a + b)[1..] == a[1..] + b;
      SetRemoveAppend(a[1..], b, h);
    }
  }

  // ---------- fan-out ----------

  /** `handlers.forEach(h => h(event))`, recorded as one invocation per handler. */
  function Calls(hs: seq<HandlerId>, event: HandlerEvent): (r: seq<Invocation>)
    ensures |r| == |hs|
    ensures forall i :: 0 <= i < |hs| ==> r[i] == Invocation(hs[i], event)
  {
    seq(|hs|, i requires 0 <= i < |hs| => Invocation(hs[i], event))
  }

  /** Typing fan-out for a list of users: for each user in list order, every
      handler in registration order. */
  function PerUserCalls(users: seq<UserTypingInfo>, hs: seq<HandlerId>): seq<Invocation>
    decreases |users|
  {
    if users == [] then []
    else PerUserCalls(users[..|users| - 1], hs) + Calls(hs, Typing(users[|users| - 1]))
  }

  /** All handler calls that one `user-typing` event produces. */
  function TypingFanOut(users: Option<seq<UserTypingInfo>>, hs: seq<HandlerId>, now: int): seq<Invocation> {
    if users.Some? && |users.value| > 0 then PerUserCalls(users.value, hs)
    else Calls(hs, Typing(BlankTyping(now)))
  }

  /** Fan-out over a concatenated user list is the concatenation of the fan-outs. */
  lemma {:induction false} PerUserCallsAppend(a: seq<UserTypingInfo>, b: seq<UserTypingInfo>, hs: seq<HandlerId>)
    ensures PerUserCalls(a + b, hs) == PerUserCalls(a, hs) + PerUserCalls(b, hs)
    decreases |b|
  {
    if b == [] {
      assert a + b == a;
    } else {
      var n := |b|;
      assert (a + b)[..|a + b| - 1] == a + b[..n - 1];
      PerUserCallsAppend(a, b[..n - 1], hs);
    }
  }

  /** Each listed user reaches every typing handler exactly once, in list
      order then registration order: the calls for user `k` form one block of
      `Calls(hs, ...)` between the blocks of the users before and after it. */
  lemma PerUserCallsBlock(users: seq<UserTypingInfo>, hs: seq<HandlerId>, k: int)
    requires 0 <= k < |users|
    ensures PerUserCalls(users, hs) ==
      PerUserCalls(users[..k], hs) + Calls(hs, Typing(users[k])) + PerUserCalls(users[k + 1..], hs)
  {
    assert users == users[..k] + [users[k]] + users[k + 1..];
    PerUserCallsAppend(users[..k] + [users[k]], users[k + 1..], hs);
    PerUserCallsAppend(users[..k], [users[k]], hs);
    assert [users[k]][..0] == [];
  }

  lemma MulSucc(a: nat, c: nat)
    ensures a * c + c == (a + 1) * c
  {
  }

  lemma {:induction false} PerUserCallsLength(users: seq<UserTypingInfo>, hs: seq<HandlerId>)
    ensures |PerUserCalls(users, hs)| == |users| * |hs|
    decreases |users|
  {
    if users != [] {
      var n := |users|;
      PerUserCallsLength(users[..n - 1], hs);
      MulSucc(n - 1, |hs|);
    }
  }

  /** An empty or absent list reaches every handler exactly once with the blank event. */
  lemma BlankTypingFanOut(users: Option<seq<UserTypingInfo>>, hs: seq<HandlerId>, now: int)
    requires users.None? || users.value == []
    ensures |TypingFanOut(users, hs, now)| == |hs|
    ensures forall j :: 0 <= j < |hs| ==>
      TypingFanOut(users, hs, now)[j] == Invocation(hs[j], Typing(UserTypingInfo("", "", false, now)))
  {
  }

  /** The manager.  `hasSocket` is `socket !== null`; `connected` is the
      socket's own flag. */
  class ChatSocketManager {
    var hasSocket: bool
    var connected: bool
    var isConnecting: bool
    var messageHandlers: seq<HandlerId>
    var typingHandlers: seq<HandlerId>
    var errorHandlers: seq<HandlerId>
    var connectHandlers: seq<HandlerId>
    var disconnectHandlers: seq<HandlerId>
    /** Everything emitted to the server, oldest first. */
    var log: seq<Emit>
    /** Every handler call, oldest first. */
    var invocations: seq<Invocation>

    ghost predicate Valid()
      reads this
    {
      (connected ==> hasSocket) &&
      NoDup(messageHandlers) && NoDup(typingHandlers) && NoDup(errorHandlers) &&
      NoDup(connectHandlers) && NoDup(disconnectHandlers)
    }

    constructor ()
      ensures Valid()
      ensures !hasSocket && !connected && !isConnecting
      ensures messageHandlers == [] && typingHandlers == [] && errorHandlers == []
      ensures connectHandlers == [] && disconnectHandlers == []
      ensures log == [] && invocations == []
    {
      hasSocket := false;
      connected := false;
      isConnecting := false;
      messageHandlers := [];
      typingHandlers := [];
      errorHandlers := [];
      connectHandlers := [];
      disconnectHandlers := [];
      log := [];
      invocations := [];
    }

    /** `connect`: a no-op while connected or while a connect is in flight;
        otherwise installs a fresh, not yet connected socket.  The token only
        travels in the handshake and is not modelled. */
    method Connect()
      requires Valid()
      modifies this`hasSocket, this`connected, this`isConnecting
      ensures Valid()
      ensures old(connected) || old(isConnecting) ==>
        hasSocket == old(hasSocket) && connected == old(connected) && isConnecting == old(isConnecting)
      ensures !old(connected) && !old(isConnecting) ==> hasSocket && !connected && isConnecting
    {
      if connected || isConnecting {
        return;
      }
      isConnecting := true;
      hasSocket := true;
      connected := false;
    }

    /** Calls every handler in `hs`, in order. */
    method Notify(hs: seq<HandlerId>, event: HandlerEvent)
      modifies this`invocations
      ensures invocations == old(invocations) + Calls(hs, event)
    {
      var i := 0;
      while i < |hs|
        invariant 0 <= i <= |hs|
        invariant invocations == old(invocations) + Calls(hs[..i], event)
      {
        invocations := invocations + [Invocation(hs[i], event)];
        assert Calls(hs[..i + 1], event) == Calls(hs[..i], event) + [Invocation(hs[i], event)];
        i := i + 1;
      }
      assert hs[..i] == hs;
    }

    /** The socket's `connect` event. */
    method OnTransportConnect()
      requires Valid() && hasSocket
      modifies this`connected, this`isConnecting, this`invocations
      ensures Valid()
      ensures connected && !isConnecting
      ensures invocations == old(invocations) + Calls(connectHandlers, Connected)
    {
      connected := true;
      isConnecting := false;
      Notify(connectHandlers, Connected);
    }

    /** The socket's `disconnect` event. */
    method OnTransportDisconnect()
      requires Valid() && hasSocket
      modifies this`connected, this`isConnecting, this`invocations
      ensures Valid()
      ensures !connected && !isConnecting
      ensures invocations == old(invocations) + Calls(disconnectHandlers, Disconnected)
    {
      connected := false;
      isConnecting := false;
      Notify(disconnectHandlers, Disconnected);
    }

    /** The socket's `connect_error` event. */
    method OnTransportConnectError(error: string)
      requires Valid() && hasSocket
      modifies this`isConnecting, this`invocations
      ensures Valid()
      ensures !isConnecting
      ensures invocations == old(invocations) + Calls(errorHandlers, Failed(error))
    {
      isConnecting := false;
      Notify(errorHandlers, Failed(error));
    }

    /** The socket's `error` event: handlers run, the connecting flag stays. */
    method OnTransportError(error: string)
      requires Valid() && hasSocket
      modifies this`invocations
      ensures invocations == old(invocations) + Calls(errorHandlers, Failed(error))
    {
      Notify(errorHandlers, Failed(error));
    }

    /** The socket's `new-message` event. */
    method OnNewMessage(message: SocketMessage)
      requires Valid() && hasSocket
      modifies this`invocations
      ensures invocations == old(invocations) + Calls(messageHandlers, Message(message))
    {
      Notify(messageHandlers, Message(message));
    }

    /** The socket's `user-typing` event; `now` is the clock reading used
        for the blank event. */
    method OnUserTyping(users: Option<seq<UserTypingInfo>>, now: int)
      requires Valid() && hasSocket
      modifies this`invocations
      ensures invocations == old(invocations) + TypingFanOut(users, typingHandlers, now)
    {
      if users.Some? && |users.value| > 0 {
        var us := users.value;
        var i := 0;
        while i < |us|
          invariant 0 <= i <= |us|
          invariant invocations == old(invocations) + PerUserCalls(us[..i], typingHandlers)
        {
          var u := us[i];
          Notify(typingHandlers, Typing(u));
          assert us[..i + 1][..i] == us[..i];
          i := i + 1;
        }
        assert us[..i] == us;
      } else {
        Notify(typingHandlers, Typing(BlankTyping(now)));
      }
    }

    /** `joinRoom`: emits only while connected. */
    method JoinRoom(chatroomId: string)
      modifies this`log
      ensures log == if connected then old(log) + [Emit("join-room", RoomPayload(chatroomId))] else old(log)
    {
      if !connected {
        return;
      }
      log := log + [Emit("join-room", RoomPayload(chatroomId))];
    }

    /** `leaveRoom`: emits only while connected. */
    method LeaveRoom(chatroomId: string)
      modifies this`log
      ensures log == if connected then old(log) + [Emit("leave-room", RoomPayload(chatroomId))] else old(log)
    {
      if !connected {
        return;
      }
      log := log + [Emit("leave-room", RoomPayload(chatroomId))];
    }

    /** `sendMessage`: the only operation that throws; the result is the
        thrown error's message, if any. */
    method SendMessage(payload: SendMessagePayload) returns (thrown: Option<string>)
      modifies this`log
      ensures !connected ==> thrown == Some("Socket not connected") && log == old(log)
      ensures connected ==> thrown == None && log == old(log) + [Emit("send-message", MessagePayload(payload))]
    {
      if !connected {
        return Some("Socket not connected");
      }
      log := log + [Emit("send-message", MessagePayload(payload))];
      thrown := None;
    }

    /** `sendTyping`: emits only while connected. */
    method SendTyping(chatroomId: string, isTyping: bool)
      modifies this`log
      ensures log == if connected then old(log) + [Emit("typing", TypingPayload(chatroomId, isTyping))] else old(log)
    {
      if !connected {
        return;
      }
      log := log + [Emit("typing", TypingPayload(chatroomId, isTyping))];
    }

    /** `getOnlineUsers`: emits only while connected (otherwise it only logs). */
    method GetOnlineUsers()
      modifies this`log
      ensures log == if connected then old(log) + [Emit("get-online-users", NoPayload)] else old(log)
    {
      if !connected {
        return;
      }
      log := log + [Emit("get-online-users", NoPayload)];
    }

    /** The `on*` registrations: add to the matching set.  Each returns an
        unsubscribe closure, modelled by `Unsubscribe(kind, handler)`. */
    method OnMessage(handler: HandlerId)
      requires Valid()
      modifies this`messageHandlers
      ensures Valid() && messageHandlers == SetAdd(old(messageHandlers), handler)
    {
      messageHandlers := SetAdd(messageHandlers, handler);
    }

    method OnTyping(handler: HandlerId)
      requires Valid()
      modifies this`typingHandlers
      ensures Valid() && typingHandlers == SetAdd(old(typingHandlers), handler)
    {
      typingHandlers := SetAdd(typingHandlers, handler);
    }

    method OnError(handler: HandlerId)
      requires Valid()
      modifies this`errorHandlers
      ensures Valid() && errorHandlers == SetAdd(old(errorHandlers), handler)
    {
      errorHandlers := SetAdd(errorHandlers, handler);
    }

    method OnConnect(handler: HandlerId)
      requires Valid()
      modifies this`connectHandlers
      ensures Valid() && connectHandlers == SetAdd(old(connectHandlers), handler)
    {
      connectHandlers := SetAdd(connectHandlers, handler);
    }

    method OnDisconnect(handler: HandlerId)
      requires Valid()
      modifies this`disconnectHandlers
      ensures Valid() && disconnectHandlers == SetAdd(old(disconnectHandlers), handler)
    {
      disconnectHandlers := SetAdd(disconnectHandlers, handler);
    }

    /** The closure returned by an `on*` call: deletes exactly that handler
        from exactly that set. */
    method Unsubscribe(kind: HandlerKind, handler: HandlerId)
      requires Valid()
      modifies this`messageHandlers, this`typingHandlers, this`errorHandlers,
               this`connectHandlers, this`disconnectHandlers
      ensures Valid()
      ensures messageHandlers == if kind == MessageKind then SetRemove(old(messageHandlers), handler) else old(messageHandlers)
      ensures typingHandlers == if kind == TypingKind then SetRemove(old(typingHandlers), handler) else old(typingHandlers)
      ensures errorHandlers == if kind == ErrorKind then SetRemove(old(errorHandlers), handler) else old(errorHandlers)
      ensures connectHandlers == if kind == ConnectKind then SetRemove(old(connectHandlers), handler) else old(connectHandlers)
      ensures disconnectHandlers == if kind == DisconnectKind then SetRemove(old(disconnectHandlers), handler) else old(disconnectHandlers)
    {
      match kind {
        case MessageKind => SetRemoveNoDup(messageHandlers, handler); messageHandlers := SetRemove(messageHandlers, handler);
        case TypingKind => SetRemoveNoDup(typingHandlers, handler); typingHandlers := SetRemove(typingHandlers, handler);
        case ErrorKind => SetRemoveNoDup(errorHandlers, handler); errorHandlers := SetRemove(errorHandlers, handler);
        case ConnectKind => SetRemoveNoDup(connectHandlers, handler); connectHandlers := SetRemove(connectHandlers, handler);
        case DisconnectKind => SetRemoveNoDup(disconnectHandlers, handler); disconnectHandlers := SetRemove(disconnectHandlers, handler);
      }
    }

    /** `disconnect`: a no-op without a socket.  Closing a connected
        socket.io client fires its own `disconnect` event synchronously, so
        the disconnect handlers run in that case. */
    method Disconnect()
      requires Valid()
      modifies this`hasSocket, this`connected, this`isConnecting, this`invocations
      ensures Valid()
      ensures !old(hasSocket) ==>
        !hasSocket && connected == old(connected) && isConnecting == old(isConnecting) && invocations == old(invocations)
      ensures old(hasSocket) ==> !hasSocket && !connected && !isConnecting
      ensures old(hasSocket) ==>
        invocations == old(invocations) + (if old(connected) then Calls(disconnectHandlers, Disconnected) else [])
    {
      if hasSocket {
        if connected {
          connected := false;
          Notify(disconnectHandlers, Disconnected);
        }
        hasSocket := false;
        connected := false;
        isConnecting := false;
      }
    }

    /** `isConnected`: `socket?.connected ?? false`. */
    method IsConnected() returns (b: bool)
      requires Valid()
      ensures b <==> hasSocket && connected
    {
      b := hasSocket && connected;
    }
  }
}
