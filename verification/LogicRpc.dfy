/** The logic server's procedures, each as one uninterrupted call on the Redis store, the user table and
    the queue to the task server. */
module LogicRpc {
  import opened Options
  import opened Redis
  import opened Histories
  import P = Presence
  import S = Sessions

  datatype User = User(id: int, password: string)

  datatype Error = NameTaken | EmptyField | BadCredentials | NoSession | EmptyRoom

  datatype Reply<T> = Success(value: T) | Failure(error: Error)

  datatype Send = Send(msg: string, fromUserId: int, fromUserName: string, toUserId: int, roomId: int, op: int)

  /** What is published for the task server; a DisConnect publishes no body. */
  datatype QueueMsg = QueueMsg(op: int, serverId: string, userId: int, roomId: int,
                               count: int, info: map<int, string>, body: Option<Send>)

  const OP_SINGLE_SEND := 2
  const OP_ROOM_SEND := 3
  const OP_ROOM_COUNT_SEND := 4
  const OP_ROOM_INFO_SEND := 5

  /** What the task server does with a message from the queue. */
  datatype Handling =
    | ToUser(serverId: string, userId: int, body: Option<Send>)
    | ToRoom(roomId: int, body: Option<Send>)
    | CountToRoom(roomId: int, count: int)
    | InfoToRoom(roomId: int, info: map<int, string>)
    | Ignored

  /** The switch of task/push.go. */
  function Handled(m: QueueMsg): Handling {
    if m.op == OP_SINGLE_SEND then ToUser(m.serverId, m.userId, m.body)
    else if m.op == OP_ROOM_SEND then ToRoom(m.roomId, m.body)
    else if m.op == OP_ROOM_COUNT_SEND then CountToRoom(m.roomId, m.count)
    else if m.op == OP_ROOM_INFO_SEND then InfoToRoom(m.roomId, m.info)
    else Ignored
  }

  /** The numbers that the two servers have agreed on. */
  lemma HandledByNumber(m: QueueMsg)
    ensures Handled(m) == match m.op
                          case 2 => ToUser(m.serverId, m.userId, m.body)
                          case 3 => ToRoom(m.roomId, m.body)
                          case 4 => CountToRoom(m.roomId, m.count)
                          case 5 => InfoToRoom(m.roomId, m.info)
                          case _ => Ignored
  {
  }

  // ---------- the invariant ----------

  function Ids(users: map<string, User>): set<int> {
    set name | name in users :: users[name].id
  }

  /** Names are not empty, ids are positive and not shared. */
  ghost predicate Accounts(users: map<string, User>) {
    && "" !in users
    && (forall m | m in users :: users[m].id > 0)
    && (forall m, n | m in users && n in users && users[m].id == users[n].id :: m == n)
  }

  /** Every session is that of an account. */
  ghost predicate Holders(st: Store, users: map<string, User>) {
    forall t | t in st.sessions ::
      var s := st.sessions[t].value; s.userName in users && users[s.userName].id == s.userId
  }

  /** The members of every room are stored under the names of their accounts. */
  ghost predicate MembersNamed(st: Store, users: map<string, User>) {
    forall room :: NamesOf(Hash(st, room), users)
  }

  ghost predicate NamesOf(info: map<int, string>, users: map<string, User>) {
    forall u | u in info :: info[u] in users && users[info[u]].id == u
  }

  ghost predicate RoomOk(st: Store, room: int) {
    P.Named(Hash(st, room)) && P.Bounded(st, room)
  }

  ghost predicate RoomsOk(st: Store) {
    forall room | room > 0 :: RoomOk(st, room)
  }

  ghost predicate Ok(st: Store, users: map<string, User>) {
    && Accounts(users)
    && Holders(st, users)
    && MembersNamed(st, users)
    && RoomsOk(st)
    && S.StateOk(S.State(st, Ids(users)))
  }

  lemma SameRooms(st: Store, st': Store)
    requires RoomsOk(st) && st'.rooms == st.rooms && st'.counts == st.counts
    ensures RoomsOk(st')
  {
    forall room | room > 0
      ensures RoomOk(st', room)
    {
      assert RoomOk(st, room);
    }
  }

  lemma SameMembers(st: Store, st': Store, users: map<string, User>, users': map<string, User>)
    requires MembersNamed(st, users) && st'.rooms == st.rooms
    requires forall name | name in users :: name in users' && users'[name] == users[name]
    ensures MembersNamed(st', users')
  {
    forall room
      ensures NamesOf(Hash(st', room), users')
    {
      assert NamesOf(Hash(st, room), users);
    }
  }

  lemma SameSessions(st: Store, st': Store, ids: set<int>)
    requires S.StateOk(S.State(st, ids))
    requires st'.now == st.now && st'.sessions == st.sessions && st'.sessMap == st.sessMap
    ensures S.StateOk(S.State(st', ids))
  {
    forall u
      ensures S.LiveOf(st', u) == S.LiveOf(st, u) && S.Unnamed(st', u) == S.Unnamed(st, u)
    {
    }
    forall u | u in st'.sessMap
      ensures S.NameOk(st', u)
    {
      assert S.NameOk(st, u);
    }
    hide S.LiveOf, S.Unnamed, S.NameOk;
  }

  lemma AccountsAfterAdd(users: map<string, User>, name: string, user: User)
    requires Accounts(users) && name !in users && name != "" && user.id > 0 && user.id !in Ids(users)
    ensures Accounts(users[name := user])
  {
    assert forall m | m in users :: users[m].id in Ids(users);
    hide Ids;
  }

  lemma IdsAfterAdd(users: map<string, User>, name: string, user: User)
    requires name !in users
    ensures Ids(users[name := user]) == Ids(users) + {user.id}
  {
    var users' := users[name := user];
    forall id | id in Ids(users) + {user.id}
      ensures id in Ids(users')
    {
      var n :| (n in users && users[n].id == id) || (n == name && id == user.id);
      assert users'[n].id == id;
    }
  }

  lemma RegisterKeepsOk(st: Store, users: map<string, User>, name: string, user: User, t: Token)
    requires Ok(st, users) && name !in users && name != "" && user.id > 0 && user.id !in Ids(users)
    requires S.FreshToken(st, t)
    ensures Ok(S.Registered(st, user.id, name, t), users[name := user])
  {
    var st', users' := S.Registered(st, user.id, name, t), users[name := user];
    IdsAfterAdd(users, name, user);
    AccountsAfterAdd(users, name, user);
    hide Accounts;
    assert Holders(st', users');
    hide Holders;
    SameRooms(st, st');
    SameMembers(st, st', users, users');
    hide MembersNamed;
    hide RoomsOk, Ids, S.StateOk;
    S.StepKeepsOk(S.State(st, Ids(users)), S.Register(user.id, name, t));
  }

  lemma LoginKeepsOk(st: Store, users: map<string, User>, name: string, t: Token)
    requires Ok(st, users) && name in users && S.FreshToken(st, t)
    ensures Ok(S.LoggedIn(st, users[name].id, name, t), users)
  {
    var st' := S.LoggedIn(st, users[name].id, name, t);
    assert users[name].id in Ids(users);
    assert Holders(st', users);
    hide Holders, Accounts;
    SameRooms(st, st');
    SameMembers(st, st', users, users);
    hide MembersNamed;
    hide RoomsOk, Ids, S.StateOk;
    S.StepKeepsOk(S.State(st, Ids(users)), S.Login(users[name].id, name, t));
  }

  lemma LogoutKeepsOk(st: Store, users: map<string, User>, t: Token)
    requires Ok(st, users)
    ensures Ok(S.LoggedOut(st, t), users)
  {
    var st' := S.LoggedOut(st, t);
    assert Holders(st', users);
    hide Holders, Accounts;
    SameRooms(st, st');
    SameMembers(st, st', users, users);
    hide MembersNamed;
    hide RoomsOk, Ids, S.StateOk;
    S.StepKeepsOk(S.State(st, Ids(users)), S.Logout(t));
  }

  lemma WaitKeepsOk(st: Store, users: map<string, User>, seconds: nat)
    requires Ok(st, users)
    ensures Ok(S.Later(st, seconds), users)
  {
    var st' := S.Later(st, seconds);
    assert Holders(st', users);
    hide Holders, Accounts;
    SameRooms(st, st');
    SameMembers(st, st', users, users);
    hide MembersNamed;
    hide RoomsOk, Ids, S.StateOk;
    S.StepKeepsOk(S.State(st, Ids(users)), S.Wait(seconds));
  }

  lemma CallKeepsOk(st: Store, users: map<string, User>, call: P.Call)
    requires Ok(st, users) && (call.Connect? ==> call.name in users && users[call.name].id == call.u)
    ensures Ok(P.After(st, call), users)
  {
    assert call.Connect? ==> call.name != "";
    MembersAfter(st, users, call);
    var st' := P.After(st, call);
    assert st'.now == st.now && st'.sessions == st.sessions && st'.sessMap == st.sessMap;
    assert Holders(st', users);
    hide Holders, Accounts, MembersNamed;
    SameSessions(st, st', Ids(users));
    hide Ids, S.StateOk;
    forall room | room > 0
      ensures RoomOk(st', room)
    {
      assert RoomOk(st, room);
      P.AfterKeepsBound(st, call, room);
    }
  }

  lemma MembersAfter(st: Store, users: map<string, User>, call: P.Call)
    requires MembersNamed(st, users) && (call.Connect? ==> call.name in users && users[call.name].id == call.u)
    ensures MembersNamed(P.After(st, call), users)
  {
    forall room
      ensures NamesOf(Hash(P.After(st, call), room), users)
    {
      assert NamesOf(Hash(st, room), users);
      match call
      case Connect(r, u, name) => P.EnteredEffect(st, r, u, name, room);
      case DisConnect(r, u) => P.ExitedEffect(st, r, u, room);
      hide P.Entered, P.Exited, Hash;
    }
  }

  lemma ServerKeepsOk(st: Store, users: map<string, User>, u: int, serverId: string)
    requires Ok(st, users)
    ensures Ok(SetServer(st, u, serverId), users)
  {
    var st' := SetServer(st, u, serverId);
    assert Holders(st', users);
    hide Holders, Accounts;
    SameSessions(st, st', Ids(users));
    SameRooms(st, st');
    SameMembers(st, st', users, users);
    hide MembersNamed;
    hide RoomsOk, Ids, S.StateOk;
  }

  lemma HolderIsNamed(st: Store, users: map<string, User>, t: Token)
    requires Ok(st, users) && GetSession(st, t).Some?
    ensures var s := GetSession(st, t).value; s.userName in users && users[s.userName].id == s.userId && s.userId > 0
  {
    assert st.sessions[t].value.userName in users;
  }

  lemma ConnectKeepsOk(st: Store, users: map<string, User>, room: int, u: int, name: string)
    requires Ok(st, users) && name in users && users[name].id == u
    ensures Ok(P.Entered(st, room, u, name), users)
  {
    CallKeepsOk(st, users, P.Connect(room, u, name));
    hide Ok, P.Entered;
  }

  lemma DisConnectKeepsOk(st: Store, users: map<string, User>, room: int, u: int)
    requires Ok(st, users)
    ensures Ok(P.Exited(st, room, u), users)
  {
    CallKeepsOk(st, users, P.DisConnect(room, u));
    hide Ok, P.Exited;
  }

  lemma ExitedIsNoMember(st: Store, room: int, u: int)
    ensures u != 0 ==> u !in Hash(P.Exited(st, room, u), room)
  {
    P.ExitedEffect(st, room, u, room);
    hide P.Exited, Hash;
  }

  lemma CountIsBounded(st: Store, users: map<string, User>, room: int)
    requires Ok(st, users) && room > 0
    ensures P.Bounded(st, room)
  {
    assert RoomOk(st, room);
  }

  /** What the hash of a room holds: those whom the history says are in the room, under their names. */
  lemma HashTold(st: Store, users: map<string, User>, h: seq<Event>, room: int)
    requires Ok(st, users) && Agree(st, h)
    ensures var info := Hash(st, room);
            && info.Keys == MembersBy(h, room) && |info| == |MembersBy(h, room)|
            && forall u | u in info :: info[u] in users && users[info[u]].id == u
  {
    AgreeAt(st, h, room, 0);
    assert NamesOf(Hash(st, room), users);
    assert |Hash(st, room)| == |Hash(st, room).Keys|;
  }

  // ---------- the procedures ----------

  class RpcLogic {
    var store: Store
    var users: map<string, User>
    var published: seq<QueueMsg>
    /** The calls of Connect, DisConnect and Logout that had an effect. */
    ghost var history: seq<Event>

    ghost predicate Valid()
      reads this
    {
      Ok(store, users) && Agree(store, history)
    }

    constructor ()
      ensures Valid() && store == EMPTY && users == map[] && published == [] && history == []
    {
      store, users, published := EMPTY, map[], [];
      history := [];
    }

    /** userId is the primary key that the database gives to a new user, and token the random token. */
    method Register(name: string, password: string, userId: int, token: Token) returns (reply: Reply<Token>)
      requires Valid() && userId > 0 && userId !in Ids(users) && S.FreshToken(store, token)
      modifies `store, `users
      ensures Valid()
      ensures reply == if name in old(users) then Failure(NameTaken)
                       else if name == "" || password == "" then Failure(EmptyField)
                       else Success(token)
      ensures reply.Failure? ==> store == old(store) && users == old(users)
      ensures reply.Success? ==>
                && users == old(users)[name := User(userId, password)]
                && store == S.Registered(old(store), userId, name, token)
                && GetSession(store, token) == Some(Session(userId, name))
    {
      hide Ok, Agree;
      if name in users {
        return Failure(NameTaken);
      }
      if name == "" || password == "" {
        return Failure(EmptyField);
      }
      RegisterKeepsOk(store, users, name, User(userId, password), token);
      SameAgree(store, S.Registered(store, userId, name, token), history);
      users := users[name := User(userId, password)];
      store := PutSession(store, token, Session(userId, name));
      return Success(token);
    }

    method Login(name: string, password: string, token: Token) returns (reply: Reply<Token>)
      requires Valid() && S.FreshToken(store, token)
      modifies `store
      ensures Valid()
      ensures reply == if name in users && password == users[name].password then Success(token)
                       else Failure(BadCredentials)
      ensures reply.Failure? ==> store == old(store)
      ensures reply.Success? ==>
                && store == S.LoggedIn(old(store), users[name].id, name, token)
                && GetSession(store, token) == Some(Session(users[name].id, name))
    {
      hide Ok, Agree;
      if name !in users || password != users[name].password {
        return Failure(BadCredentials);
      }
      var userId := users[name].id;
      LoginKeepsOk(store, users, name, token);
      SameAgree(store, S.LoggedIn(store, userId, name, token), history);
      var named := GetNamed(store, userId);
      if named.Some? && named.value != "" {
        store := DelSession(store, named.value);
      }
      store := PutNamedSession(store, token, Session(userId, name));
      return Success(token);
    }

    method CheckAuth(authToken: Token) returns (reply: Reply<Session>)
      requires Valid()
      ensures reply == match GetSession(store, authToken) case Some(session) => Success(session)
                       case None => Failure(NoSession)
      ensures reply.Success? ==> reply.value.userName in users && users[reply.value.userName].id == reply.value.userId
    {
      var session := GetSession(store, authToken);
      if session.None? {
        return Failure(NoSession);
      }
      return Success(session.value);
    }

    method Logout(authToken: Token) returns (reply: Reply<()>)
      requires Valid()
      modifies `store, `history
      ensures Valid()
      ensures var session := GetSession(old(store), authToken);
              history == old(history) + if session.Some? then [LoggedOut(session.value.userId)] else []
      ensures reply == if GetSession(old(store), authToken).Some? then Success(()) else Failure(NoSession)
      ensures store == S.LoggedOut(old(store), authToken)
      ensures GetSession(store, authToken) == None
    {
      hide Ok, Agree;
      var session := GetSession(store, authToken);
      LogoutKeepsOk(store, users, authToken);
      LogoutAgrees(store, history, authToken);
      if session.None? {
        return Failure(NoSession);
      }
      store := DelNamed(store, session.value.userId);
      store := DelServer(store, session.value.userId);
      store := DelSession(store, authToken);
      history := history + [LoggedOut(session.value.userId)];
      return Success(());
    }

    /** A user is a member of the room and is reached through serverId from now on. */
    method Connect(authToken: Token, roomId: int, serverId: string) returns (userId: int)
      requires Valid()
      modifies `store, `history
      ensures Valid()
      ensures GetSession(old(store), authToken) == None ==>
                userId == 0 && store == old(store) && history == old(history)
      ensures userId != 0 ==> history == old(history) + [Connected(userId, roomId, serverId, store.now)]
      ensures forall s | GetSession(old(store), authToken) == Some(s) ::
                userId == s.userId
                && store == P.Entered(SetServer(old(store), userId, serverId), roomId, userId, s.userName)
      ensures userId != 0 ==> userId in Hash(store, roomId) && GetServer(store, userId) == serverId
    {
      hide Ok, Agree, P.After;
      var userInfo := GetSession(store, authToken);
      if userInfo.None? {
        return 0;
      }
      HolderIsNamed(store, users, authToken);
      userId := userInfo.value.userId;
      if userId != 0 {
        ConnectAgrees(store, history, userId, roomId, serverId, userInfo.value.userName);
        history := history + [Connected(userId, roomId, serverId, store.now)];
        ServerKeepsOk(store, users, userId, serverId);
        store := SetServer(store, userId, serverId);
        ConnectKeepsOk(store, users, roomId, userId, userInfo.value.userName);
        if HGet(store, roomId, userId) == "" {
          store := HSet(store, roomId, userId, userInfo.value.userName);
          store := Add(store, roomId, 1);
        }
      }
    }

    /** The user is no member any more; what is published is the room as it is then. */
    method DisConnect(roomId: int, userId: int)
      requires Valid()
      modifies `store, `published, `history
      ensures Valid()
      ensures store == P.Exited(old(store), roomId, userId)
      ensures history == old(history) + if userId != 0 then [Disconnected(userId, roomId)] else []
      ensures |published| == |old(published)| + 1 && published[..|old(published)|] == old(published)
      ensures var m := published[|old(published)|];
              && m.op == OP_ROOM_SEND && m.serverId == "" && m.userId == 0 && m.roomId == roomId && m.body == None
              && m.count == |MembersBy(history, roomId)| && m.info.Keys == MembersBy(history, roomId)
              && forall u | u in m.info :: m.info[u] in users && users[m.info[u]].id == u
      ensures userId != 0 ==> userId !in published[|old(published)|].info
      ensures Handled(published[|old(published)|]) == ToRoom(roomId, None)
    {
      hide Ok, Agree;
      DisConnectKeepsOk(store, users, roomId, userId);
      DisConnectAgrees(store, history, userId, roomId);
      ExitedIsNoMember(store, roomId, userId);
      if roomId > 0 {
        var count := Count(store, roomId);
        if count > 0 {
          store := Add(store, roomId, -1);
        }
      }
      if userId != 0 {
        store := HDel(store, roomId, userId);
        history := history + [Disconnected(userId, roomId)];
      }
      HashTold(store, users, history, roomId);
      var roomUserInfo := Hash(store, roomId);
      published := published + [QueueMsg(OP_ROOM_SEND, "", 0, roomId, |roomUserInfo|, roomUserInfo, None)];
    }

    /** The message goes to the server of the receiver's last Connect, if no Logout came later and the
        key has not expired, and to no server otherwise. */
    method Push(send: Send)
      requires Valid()
      modifies `published
      ensures Valid()
      ensures published == old(published) + [QueueMsg(OP_SINGLE_SEND, ServerBy(history, send.toUserId, store.now),
                                                      send.toUserId, 0, 0, map[], Some(send))]
      ensures Handled(published[|old(published)|])
           == ToUser(ServerBy(history, send.toUserId, store.now), send.toUserId, Some(send))
    {
      hide Ok, Agree, ServerBy;
      AgreeAt(store, history, send.roomId, send.toUserId);
      var serverId := GetServer(store, send.toUserId);
      published := published + [QueueMsg(OP_SINGLE_SEND, serverId, send.toUserId, 0, 0, map[], Some(send))];
    }

    /** The message goes to the room with those who have connected to it and not disconnected since. */
    method PushRoom(send: Send)
      requires Valid()
      modifies `published
      ensures Valid() && |published| == |old(published)| + 1 && published[..|old(published)|] == old(published)
      ensures var m := published[|old(published)|];
              && m.op == OP_ROOM_SEND && m.serverId == "" && m.userId == 0 && m.roomId == send.roomId
              && m.body == Some(send.(op := OP_ROOM_SEND)) && Handled(m) == ToRoom(send.roomId, m.body)
              && m.count == |MembersBy(history, send.roomId)| && m.info.Keys == MembersBy(history, send.roomId)
              && forall u | u in m.info :: m.info[u] in users && users[m.info[u]].id == u
    {
      hide Ok, Agree, MembersBy;
      HashTold(store, users, history, send.roomId);
      var roomUserInfo := Hash(store, send.roomId);
      var body := send.(op := OP_ROOM_SEND);
      published := published + [QueueMsg(OP_ROOM_SEND, "", 0, send.roomId, |roomUserInfo|, roomUserInfo, Some(body))];
    }

    /** The count that is published is never negative and never above the number of members. */
    method PublishCount(roomId: int)
      requires Valid()
      modifies `published
      ensures Valid()
      ensures published == old(published)
                           + [QueueMsg(OP_ROOM_COUNT_SEND, "", 0, roomId, Count(store, roomId), map[], None)]
      ensures roomId > 0 ==> 0 <= published[|old(published)|].count <= |Hash(store, roomId)|
      ensures Handled(published[|old(published)|]) == CountToRoom(roomId, Count(store, roomId))
    {
      if roomId > 0 {
        CountIsBounded(store, users, roomId);
      }
      hide Ok, Agree;
      published := published + [QueueMsg(OP_ROOM_COUNT_SEND, "", 0, roomId, Count(store, roomId), map[], None)];
    }

    method GetRoomInfo(roomId: int) returns (reply: Reply<()>)
      requires Valid()
      modifies `published
      ensures Valid()
      ensures reply == if MembersBy(history, roomId) == {} then Failure(EmptyRoom) else Success(())
      ensures reply.Failure? ==> published == old(published)
      ensures reply.Success? ==>
                |published| == |old(published)| + 1 && published[..|old(published)|] == old(published)
      ensures reply.Success? ==>
                var m := published[|old(published)|];
                && m.op == OP_ROOM_INFO_SEND && m.serverId == "" && m.userId == 0 && m.roomId == roomId
                && m.body == None && Handled(m) == InfoToRoom(roomId, m.info)
                && m.count == |MembersBy(history, roomId)| && m.info.Keys == MembersBy(history, roomId)
                && forall u | u in m.info :: m.info[u] in users && users[m.info[u]].id == u
    {
      hide Ok, Agree, MembersBy;
      HashTold(store, users, history, roomId);
      var roomUserInfo := Hash(store, roomId);
      if |roomUserInfo| == 0 {
        return Failure(EmptyRoom);
      }
      published := published + [QueueMsg(OP_ROOM_INFO_SEND, "", 0, roomId, |roomUserInfo|, roomUserInfo, None)];
      return Success(());
    }

    /** Time passes, and keys expire. */
    method Wait(seconds: nat)
      requires Valid()
      modifies `store
      ensures Valid() && store == S.Later(old(store), seconds)
    {
      hide Ok, Agree;
      WaitKeepsOk(store, users, seconds);
      SameAgree(store, S.Later(store, seconds), history);
      store := store.(now := store.now + seconds);
    }
  }
}
