/** What the user keys and the room hashes hold, told from the calls that were made instead of from the store. */
module Histories {
  import opened Redis
  import P = Presence
  import S = Sessions

  /** A Connect of a live token, a DisConnect of a user, a Logout of a live token. */
  datatype Event =
    | Connected(u: int, room: int, serverId: string, at: nat)
    | Disconnected(u: int, room: int)
    | LoggedOut(u: int)

  predicate Reroutes(e: Event, u: int) {
    (e.Connected? || e.LoggedOut?) && e.u == u
  }

  /** The server that reaches a user at a time: that of the last Connect, unless a Logout came later
      or the key expired. */
  function ServerBy(h: seq<Event>, u: int, now: nat): string {
    if h == [] then ""
    else
      var last := h[|h| - 1];
      if !Reroutes(last, u) then ServerBy(h[..|h| - 1], u, now)
      else if last.Connected? && now < last.at + VALID_TIME then last.serverId
      else ""
  }

  /** Those who have connected to a room and not disconnected from it since. */
  function MembersBy(h: seq<Event>, room: int): set<int> {
    if h == [] then {}
    else
      var last, before := h[|h| - 1], MembersBy(h[..|h| - 1], room);
      if last.Connected? && last.room == room then before + {last.u}
      else if last.Disconnected? && last.room == room then before - {last.u}
      else before
  }

  /** A server reaches the user exactly if a Connect to it is neither overtaken nor expired. */
  lemma {:induction false} ServerByExactly(h: seq<Event>, u: int, now: nat, id: string)
    requires id != ""
    ensures ServerBy(h, u, now) == id
       <==> exists i :: 0 <= i < |h| && h[i].Connected? && h[i].u == u && h[i].serverId == id
                        && now < h[i].at + VALID_TIME && Settled(h, u, i)
  {
    if h != [] {
      var last := |h| - 1;
      var before := h[..last];
      ServerByExactly(before, u, now, id);
      hide ServerBy;
      assert forall i | 0 <= i < last :: before[i] == h[i];
      assert ServerBy(h, u, now) == if !Reroutes(h[last], u) then ServerBy(before, u, now)
                                    else if h[last].Connected? && now < h[last].at + VALID_TIME then h[last].serverId
                                    else "" by {
        ServerByLast(h, u, now);
      }
      assert forall i | 0 <= i < last :: Settled(h, u, i) <==> Settled(before, u, i) && !Reroutes(h[last], u);
      assert Settled(h, u, last);
    }
  }

  lemma ServerByLast(h: seq<Event>, u: int, now: nat)
    requires h != []
    ensures var last := h[|h| - 1];
            ServerBy(h, u, now) == if !Reroutes(last, u) then ServerBy(h[..|h| - 1], u, now)
                                   else if last.Connected? && now < last.at + VALID_TIME then last.serverId
                                   else ""
  {
  }

  /** No later call has rerouted the user. */
  ghost predicate Settled(h: seq<Event>, u: int, i: nat) {
    forall j | i < j < |h| :: !Reroutes(h[j], u)
  }

  /** A user is in the room exactly if a Connect to it was not followed by a DisConnect from it. */
  lemma {:induction false} MembersByExactly(h: seq<Event>, room: int, u: int)
    ensures u in MembersBy(h, room)
       <==> exists i :: 0 <= i < |h| && h[i].Connected? && h[i].u == u && h[i].room == room && Stays(h, room, u, i)
  {
    if h != [] {
      var last := |h| - 1;
      var before := h[..last];
      MembersByExactly(before, room, u);
      assert forall i | 0 <= i < last :: before[i] == h[i];
      assert forall i | 0 <= i < last ::
          Stays(h, room, u, i) <==> Stays(before, room, u, i) && h[last] != Disconnected(u, room);
      assert Stays(h, room, u, last);
      hide Stays;
    }
  }

  ghost predicate Stays(h: seq<Event>, room: int, u: int, i: nat) {
    forall j | i < j < |h| :: h[j] != Disconnected(u, room)
  }

  // ---------- the store agrees with the history ----------

  function ServerAt(st: Store, u: int, now: nat): string {
    if Live(st.servers, u, now) then st.servers[u].value else ""
  }

  ghost predicate ServersAgree(st: Store, h: seq<Event>) {
    forall u, now: nat :: ServerAt(st, u, now) == ServerBy(h, u, now)
  }

  ghost predicate RoomsAgree(st: Store, h: seq<Event>) {
    forall room :: Hash(st, room).Keys == MembersBy(h, room)
  }

  /** The user keys now and at any other time, and the room hashes, are what the calls made of them. */
  ghost predicate Agree(st: Store, h: seq<Event>) {
    ServersAgree(st, h) && RoomsAgree(st, h)
  }

  lemma SameServers(st: Store, st': Store, h: seq<Event>)
    requires ServersAgree(st, h) && st'.servers == st.servers
    ensures ServersAgree(st', h)
  {
    forall u, now: nat
      ensures ServerAt(st', u, now) == ServerBy(h, u, now)
    {
      assert ServerAt(st, u, now) == ServerBy(h, u, now);
    }
  }

  lemma SameRooms(st: Store, st': Store, h: seq<Event>)
    requires RoomsAgree(st, h) && st'.rooms == st.rooms
    ensures RoomsAgree(st', h)
  {
    forall room
      ensures Hash(st', room).Keys == MembersBy(h, room)
    {
      assert Hash(st, room).Keys == MembersBy(h, room);
    }
  }

  lemma OtherEvent(st: Store, h: seq<Event>, e: Event)
    requires Agree(st, h)
    ensures e.Disconnected? ==> ServersAgree(st, h + [e])
    ensures e.LoggedOut? ==> RoomsAgree(st, h + [e])
  {
    assert (h + [e])[..|h|] == h;
  }

  lemma ConnectAgrees(st: Store, h: seq<Event>, u: int, room: int, serverId: string, name: string)
    requires Agree(st, h)
    ensures Agree(P.Entered(SetServer(st, u, serverId), room, u, name), h + [Connected(u, room, serverId, st.now)])
  {
    var mid, h' := SetServer(st, u, serverId), h + [Connected(u, room, serverId, st.now)];
    ServerSet(st, h, u, room, serverId);
    SameServers(mid, P.Entered(mid, room, u, name), h');
    SameRooms(st, mid, h);
    RoomEntered(mid, h, u, room, serverId, name, st.now);
    hide ServersAgree, RoomsAgree, P.Entered;
  }

  lemma ServerSet(st: Store, h: seq<Event>, u: int, room: int, serverId: string)
    requires ServersAgree(st, h)
    ensures ServersAgree(SetServer(st, u, serverId), h + [Connected(u, room, serverId, st.now)])
  {
    var st', h' := SetServer(st, u, serverId), h + [Connected(u, room, serverId, st.now)];
    assert h'[..|h|] == h;
    forall v, now: nat
      ensures ServerAt(st', v, now) == ServerBy(h', v, now)
    {
      assert ServerAt(st, v, now) == ServerBy(h, v, now);
    }
  }

  lemma RoomEntered(st: Store, h: seq<Event>, u: int, room: int, serverId: string, name: string, at: nat)
    requires RoomsAgree(st, h)
    ensures RoomsAgree(P.Entered(st, room, u, name), h + [Connected(u, room, serverId, at)])
  {
    var st', h' := P.Entered(st, room, u, name), h + [Connected(u, room, serverId, at)];
    assert h'[..|h|] == h;
    forall r
      ensures Hash(st', r).Keys == MembersBy(h', r)
    {
      P.EnteredEffect(st, room, u, name, r);
      assert Hash(st, r).Keys == MembersBy(h, r);
      hide P.Entered;
    }
  }

  lemma DisConnectAgrees(st: Store, h: seq<Event>, u: int, room: int)
    requires Agree(st, h)
    ensures Agree(P.Exited(st, room, u), if u != 0 then h + [Disconnected(u, room)] else h)
  {
    assert P.Exited(st, room, u).servers == st.servers;
    if u != 0 {
      OtherEvent(st, h, Disconnected(u, room));
    }
    SameServers(st, P.Exited(st, room, u), if u != 0 then h + [Disconnected(u, room)] else h);
    RoomExited(st, h, u, room);
    hide ServersAgree, RoomsAgree, P.Exited;
  }

  lemma RoomExited(st: Store, h: seq<Event>, u: int, room: int)
    requires RoomsAgree(st, h)
    ensures RoomsAgree(P.Exited(st, room, u), if u != 0 then h + [Disconnected(u, room)] else h)
  {
    hide P.Exited;
    var st', h' := P.Exited(st, room, u), if u != 0 then h + [Disconnected(u, room)] else h;
    assert u != 0 ==> h'[..|h|] == h;
    forall r
      ensures Hash(st', r).Keys == MembersBy(h', r)
    {
      P.ExitedEffect(st, room, u, r);
      assert Hash(st, r).Keys == MembersBy(h, r);
    }
  }

  lemma LogoutAgrees(st: Store, h: seq<Event>, t: Token)
    requires Agree(st, h)
    ensures var session := GetSession(st, t);
            Agree(S.LoggedOut(st, t), if session.Some? then h + [LoggedOut(session.value.userId)] else h)
  {
    var session, st' := GetSession(st, t), S.LoggedOut(st, t);
    if session.Some? {
      var e := LoggedOut(session.value.userId);
      OtherEvent(st, h, e);
      SameRooms(st, st', h + [e]);
      assert (h + [e])[..|h|] == h;
      forall v, now: nat
        ensures ServerAt(st', v, now) == ServerBy(h + [e], v, now)
      {
        assert ServerAt(st, v, now) == ServerBy(h, v, now);
      }
    }
  }

  lemma SameAgree(st: Store, st': Store, h: seq<Event>)
    requires Agree(st, h) && st'.servers == st.servers && st'.rooms == st.rooms
    ensures Agree(st', h)
  {
    SameServers(st, st', h);
    SameRooms(st, st', h);
  }

  lemma AgreeAt(st: Store, h: seq<Event>, room: int, u: int)
    requires Agree(st, h)
    ensures GetServer(st, u) == ServerBy(h, u, st.now)
    ensures Hash(st, room).Keys == MembersBy(h, room)
  {
    assert ServerAt(st, u, st.now) == ServerBy(h, u, st.now);
  }
}
