/**
 * The chat provider: which room the screen is in, who is typing in it, and
 * whether the socket reported itself connected.  Room changes go through the
 * shared socket manager; typing updates arrive through the manager's typing
 * handlers.
 */
module ChatContext {
  import opened Wrappers
  import opened ChatSocket

  /** `x` is a non-empty room id (JavaScript truthiness of a string or null). */
  predicate IsSet(room: Option<string>) {
    room.Some? && room.value != ""
  }

  /** What the socket sends when connected; nothing otherwise. */
  function EmittedIf(connected: bool, e: Emit): (r: seq<Emit>)
    ensures |r| <= 1
    ensures connected <==> r == [e]
  {
    if connected then [e] else []
  }

  /** The typing handler's map update: insert or overwrite the entry of a
      typing user other than oneself, otherwise delete that user's entry. */
  function TypingUpdate(m: map<string, UserTypingInfo>, info: UserTypingInfo, ownId: Option<string>)
    : (r: map<string, UserTypingInfo>)
    ensures info.isTyping && ownId != Some(info.userId) ==> info.userId in r && r[info.userId] == info
    ensures !(info.isTyping && ownId != Some(info.userId)) ==> info.userId !in r
    ensures forall k :: k != info.userId ==> (k in r <==> k in m)
    ensures forall k :: k != info.userId && k in r ==> r[k] == m[k]
  {
    if info.isTyping && ownId != Some(info.userId) then m[info.userId := info]
    else m - {info.userId}
  }

  /** Successive calls of the typing handler. */
  function ApplyTypingEvents(m: map<string, UserTypingInfo>, events: seq<UserTypingInfo>, ownId: Option<string>)
    : map<string, UserTypingInfo>
    decreases |events|
  {
    if events == [] then m
    else ApplyTypingEvents(TypingUpdate(m, events[0], ownId), events[1..], ownId)
  }

  /** The events one typing handler sees for one `user-typing` delivery:
      every listed user in order, or the single blank event. */
  function TypingEvents(users: Option<seq<UserTypingInfo>>, now: int): (es: seq<UserTypingInfo>)
    ensures |es| >= 1
  {
    if users.Some? && |users.value| > 0 then users.value else [BlankTyping(now)]
  }

  /** With a single registered typing handler, the socket's fan-out calls it
      with exactly `TypingEvents`, in order. */
  lemma {:induction false} SingleHandlerSees(users: Option<seq<UserTypingInfo>>, h: HandlerId, now: int)
    ensures var calls := TypingFanOut(users, [h], now);
            var es := TypingEvents(users, now);
            |calls| == |es| && forall i :: 0 <= i < |es| ==> calls[i] == Invocation(h, Typing(es[i]))
  {
    if users.Some? && |users.value| > 0 {
      PerUserSingle(users.value, h);
    }
  }

  lemma {:induction false} PerUserSingle(us: seq<UserTypingInfo>, h: HandlerId)
    ensures |PerUserCalls(us, [h])| == |us|
    ensures forall i :: 0 <= i < |us| ==> PerUserCalls(us, [h])[i] == Invocation(h, Typing(us[i]))
    decreases |us|
  {
    if us != [] {
      PerUserSingle(us[..|us| - 1], h);
    }
  }

  /** Typing events never touch the entries of users they do not name. */
  lemma {:induction false} OtherUsersUntouched(m: map<string, UserTypingInfo>, events: seq<UserTypingInfo>,
                                               ownId: Option<string>, k: string)
    requires forall i :: 0 <= i < |events| ==> events[i].userId != k
    ensures var r := ApplyTypingEvents(m, events, ownId);
            (k in r <==> k in m) && (k in r ==> r[k] == m[k])
    decreases |events|
  {
    if events != [] {
      OtherUsersUntouched(TypingUpdate(m, events[0], ownId), events[1..], ownId, k);
    }
  }

  /** The blank "nobody is typing" event only deletes the key "", so the
      entries of real users survive it. */
  lemma BlankEventOnlyRemovesEmptyKey(m: map<string, UserTypingInfo>, ownId: Option<string>, now: int)
    ensures ApplyTypingEvents(m, TypingEvents(None, now), ownId) == m - {""}
  {
    assert TypingEvents(None, now)[1..] == [];
  }

  /** A user's own typing events never show them as typing. */
  lemma {:induction false} OwnUserNeverListed(m: map<string, UserTypingInfo>, events: seq<UserTypingInfo>, own: string)
    requires own !in m
    ensures own !in ApplyTypingEvents(m, events, Some(own))
    decreases |events|
  {
    if events != [] {
      OwnUserNeverListed(TypingUpdate(m, events[0], Some(own)), events[1..], own);
    }
  }

  class ChatProvider {
    const socket: ChatSocketManager
    /** `user?.id` of the signed-in user. */
    const ownId: Option<string>
    var isConnected: bool
    var currentRoomId: Option<string>
    var typingUsers: map<string, UserTypingInfo>

    constructor (socket: ChatSocketManager, ownId: Option<string>)
      ensures this.socket == socket && this.ownId == ownId
      ensures !isConnected && currentRoomId == None && typingUsers == map[]
    {
      this.socket := socket;
      this.ownId := ownId;
      isConnected := false;
      currentRoomId := None;
      typingUsers := map[];
    }

    /** The connect effect: connect only when authenticated, with a user and
        a stored token. */
    method ConnectIfAuthenticated(isAuthenticated: bool, hasUser: bool, token: Option<string>)
      requires socket.Valid()
      modifies socket`hasSocket, socket`connected, socket`isConnecting
      ensures socket.Valid()
      ensures !(isAuthenticated && hasUser && IsSet(token)) ==>
        socket.hasSocket == old(socket.hasSocket) && socket.connected == old(socket.connected) &&
        socket.isConnecting == old(socket.isConnecting)
      ensures isAuthenticated && hasUser && IsSet(token) && !old(socket.connected) && !old(socket.isConnecting) ==>
        socket.hasSocket && socket.isConnecting
    {
      if isAuthenticated && hasUser && IsSet(token) {
        socket.Connect();
      }
    }

    /** The registered connect handler. */
    method HandleConnect()
      modifies this`isConnected
      ensures isConnected
    {
      isConnected := true;
    }

    /** The registered disconnect handler. */
    method HandleDisconnect()
      modifies this`isConnected
      ensures !isConnected
    {
      isConnected := false;
    }

    /** The registered typing handler. */
    method HandleTyping(info: UserTypingInfo)
      modifies this`typingUsers
      ensures typingUsers == TypingUpdate(old(typingUsers), info, ownId)
    {
      typingUsers := TypingUpdate(typingUsers, info, ownId);
    }

    /** One `user-typing` delivery as the provider's handler sees it. */
    method HandleTypingDelivery(users: Option<seq<UserTypingInfo>>, now: int)
      modifies this`typingUsers
      ensures typingUsers == ApplyTypingEvents(old(typingUsers), TypingEvents(users, now), ownId)
    {
      var es := TypingEvents(users, now);
      var i := 0;
      while i < |es|
        invariant 0 <= i <= |es|
        invariant ApplyTypingEvents(old(typingUsers), es, ownId) == ApplyTypingEvents(typingUsers, es[i..], ownId)
      {
        assert es[i..][1..] == es[i + 1..];
        HandleTyping(es[i]);
        i := i + 1;
      }
    }

    /** `joinRoom`: leave a different current room first, then join, then
        make the new room current with nobody typing. */
    method JoinRoom(roomId: string)
      modifies this`currentRoomId, this`typingUsers, socket`log
      ensures currentRoomId == Some(roomId) && typingUsers == map[]
      ensures socket.log == old(socket.log)
        + (if IsSet(old(currentRoomId)) && old(currentRoomId) != Some(roomId)
           then EmittedIf(socket.connected, Emit("leave-room", RoomPayload(old(currentRoomId).value)))
           else [])
        + EmittedIf(socket.connected, Emit("join-room", RoomPayload(roomId)))
    {
      if IsSet(currentRoomId) && currentRoomId != Some(roomId) {
        socket.LeaveRoom(currentRoomId.value);
      }
      socket.JoinRoom(roomId);
      currentRoomId := Some(roomId);
      typingUsers := map[];
    }

    /** `leaveRoom`: always forwarded; the state is cleared only when the
        room was the current one. */
    method LeaveRoom(roomId: string)
      modifies this`currentRoomId, this`typingUsers, socket`log
      ensures socket.log == old(socket.log) + EmittedIf(socket.connected, Emit("leave-room", RoomPayload(roomId)))
      ensures old(currentRoomId) == Some(roomId) ==> currentRoomId == None && typingUsers == map[]
      ensures old(currentRoomId) != Some(roomId) ==>
        currentRoomId == old(currentRoomId) && typingUsers == old(typingUsers)
    {
      socket.LeaveRoom(roomId);
      if currentRoomId == Some(roomId) {
        currentRoomId := None;
        typingUsers := map[];
      }
    }

    /** `sendTyping`: forwarded only while a room is current. */
    method SendTyping(isTyping: bool)
      modifies socket`log
      ensures socket.log == old(socket.log) +
        (if IsSet(currentRoomId)
         then EmittedIf(socket.connected, Emit("typing", TypingPayload(currentRoomId.value, isTyping)))
         else [])
    {
      if IsSet(currentRoomId) {
        socket.SendTyping(currentRoomId.value, isTyping);
      }
    }
  }
}
