/** connect/bucket.go: the users and rooms of one shard. Put and DeleteChannel are taken as atomic;
    the interleavings of Put's two lock sections are in module TwoPhasePut. */
module Buckets {
  import opened Collections
  import opened Rooms
  import opened Connect
  import opened Relinking

  class Bucket {
    var chs: map<int, Channel>
    var rooms: map<int, Room>
    /** The members of each mapped room. */
    ghost var dir: Directory<Channel>
    ghost var Repr: set<object>

    ghost predicate Valid()
      reads this, Repr
    {
      AllBut(null)
    }

    ghost function View(): BucketView<Channel>
      reads this
    {
      BucketView(chs, dir)
    }

    /** The lists of the mapped rooms. */
    ghost function Lists(): map<Room, seq<Channel>>
      reads this, rooms.Values
    {
      map r | r in rooms.Values :: r.members
    }

    /** The room of the channel that serves a user. */
    ghost function RoomIdOf(userId: int): int
      reads this, chs.Values
    {
      if userId in chs && chs[userId].room != null then chs[userId].room.id else NO_ROOM
    }

    /** A mapped room is live and its list is the one in the directory. */
    ghost predicate RoomOk(r: int)
      requires r in rooms && r in dir && rooms[r] in Repr
      requires forall c | c in dir[r] :: c in Repr
      reads this`rooms, this`dir, this`Repr, Repr
    {
      var room := rooms[r];
      room.id == r && !room.drop && room.members == dir[r] && room.Valid()
    }

    /** A mapped channel knows its key, and stands in the list of its room. */
    ghost predicate UserOk(u: int)
      requires u in chs && chs[u] in Repr
      reads this, Repr
    {
      var c := chs[u];
      && c.userId == u
      && (c.room != null ==>
            c.room.id in rooms && c.room.id in dir && rooms[c.room.id] == c.room && c in dir[c.room.id])
    }

    /** The invariant, except that room, when it is not null, may still be empty. */
    ghost predicate AllBut(room: Room?)
      reads this, Repr
    {
      && this !in Repr && chs.Values <= Repr && RoomsOk(room) && forall u | u in chs :: UserOk(u)
    }

    ghost predicate RoomsOk(room: Room?)
      reads this, Repr
    {
      && rooms.Values <= Repr && NO_ROOM !in rooms
      && (forall r | r in dir ::
            r in rooms && dir[r] != [] && forall c: Channel | c in dir[r] :: c in Repr && c.room == rooms[r])
      && (forall r | r in rooms && (room == null || r != room.id) :: r in dir && RoomOk(r))
      && (room != null ==>
            && room in Repr && room.id in rooms && rooms[room.id] == room
            && !room.drop && room.members == MembersOf(dir, room.id) && room.Valid())
    }

    /** ch is mapped but not yet in the list of its room. */
    ghost predicate Pending(room: Room?, ch: Channel)
      reads this, Repr, ch
    {
      && this !in Repr && chs.Values <= Repr && RoomsOk(room)
      && ch in Repr && ch.userId in chs && chs[ch.userId] == ch && ch.room == room
      && (forall u | u in chs && u != ch.userId :: UserOk(u))
      && forall r | r in dir :: ch !in dir[r]
    }

    /** The room of the channel, if it names one, is mapped and lists it. */
    ghost predicate Listed(ch: Channel)
      reads this, ch
    {
      ch.room != null ==>
        && ch.room.id in rooms && ch.room.id in dir && rooms[ch.room.id] == ch.room && ch in dir[ch.room.id]
    }

    /** The channel serves no other user; and it is in no list if it is put into a room, and otherwise in that of the
        room it names. */
    ghost predicate Fit(userId: int, roomId: int, ch: Channel)
      reads this, ch
    {
      && (forall u | u in chs && chs[u] == ch :: u == userId)
      && if roomId == NO_ROOM then Listed(ch) else forall r | r in dir :: ch !in dir[r]
    }

    constructor ()
      ensures Valid() && fresh(Repr) && chs == map[] && dir == map[] && rooms == map[]
    {
      chs, rooms, dir := map[], map[], map[];
      Repr := {};
    }

    /** What the bucket maps and lists is its own, and the rooms of its users have keys. */
    lemma Contained()
      requires Valid()
      ensures this !in Repr && chs.Values <= Repr
      ensures forall r | r in dir :: forall c | c in dir[r] :: c in Repr
      ensures forall r :: r in dir <==> r in rooms
      ensures forall r | r in dir :: dir[r] != []
      ensures forall u | u in chs :: chs[u].userId == u && Listed(chs[u])
      ensures forall u | u in chs && chs[u].room != null :: chs[u].room.id != NO_ROOM
    {
      assert forall u | u in chs :: UserOk(u);
    }

    lemma Known(r: int)
      requires Valid() && r in dir
      ensures r in rooms && rooms[r].Valid() && rooms[r].members == dir[r] && rooms[r] in Repr
    {
      assert RoomOk(r);
    }

    // ---------- what stays as it is ----------

    /** A room none of whose links has been written. */
    twostate lemma RoomStays(r: int)
      requires old(r in rooms && r in dir && rooms[r] in Repr && forall c | c in dir[r] :: c in Repr)
      requires old(RoomOk(r))
      requires r in rooms && rooms[r] == old(rooms[r]) && r in dir && dir[r] == old(dir[r])
      requires rooms[r] in Repr && forall c | c in dir[r] :: c in Repr
      requires unchanged(rooms[r]) && forall c | c in dir[r] :: c.next == old(c.next) && c.prev == old(c.prev)
      ensures RoomOk(r)
    {
      hide Distinct;
      forall i | 0 <= i < |dir[r]|
        ensures dir[r][i].next == old(dir[r][i].next) && dir[r][i].prev == old(dir[r][i].prev)
      {
        assert dir[r][i] in dir[r];
      }
    }
  
    // ---------- Put ----------

    /** Of any channel: the user is mapped to it, and it is first in its room. The bucket is as it should be afterwards
        exactly if the channel served no other user, and was in no list, or in that of its room if it is put without
        one.
        The rooms still have lists that share no channel exactly if it is put without a room or was in none of them.
        ok stands for a nil error. */
    method Put(userId: int, roomId: int, ch: Channel) returns (ok: bool)
      requires Valid()
      modifies this, Repr, ch
      ensures ok && (roomId != NO_ROOM ==> roomId in rooms)
      ensures Repr == old(Repr) + {ch} + (if roomId == NO_ROOM then {} else {rooms[roomId]})
      ensures chs == old(chs)[userId := ch]
      ensures Valid() <==> old(Fit(userId, roomId, ch))
      ensures Valid() ==> View() == Mapped(old(View()), userId, roomId, ch)
      ensures roomId == NO_ROOM ==> rooms == old(rooms) && Lists() == old(Lists())
      ensures roomId != NO_ROOM ==>
                && rooms == old(rooms)[roomId := rooms[roomId]]
                && (if roomId in old(rooms) then rooms[roomId] == old(rooms)[roomId] else fresh(rooms[roomId]))
                && Relinked(old(Lists()), rooms[roomId], ch)
      ensures (exists lists: map<Room, seq<Channel>> :: Spelled(rooms.Values, lists))
         <==> roomId == NO_ROOM || old(Unlisted(Lists(), ch))
      ensures ch.userId == userId && (if roomId == NO_ROOM then ch.room == old(ch.room)
                                      else ch.room == rooms[roomId] && rooms[roomId].id == roomId)
      ensures forall c: Channel | c in old(Repr) && c != ch :: c.userId == old(c.userId) && c.room == old(c.room)
    {
      hide Distinct, Forwards, Backwards, Nth, RoomsOk, AllBut, Pending, Fit, Along, Consistent, Relinked, Unlisted,
        Kept, RoomOk, UserOk, Room.Spells, Separate, Joined;
      ghost var was := Lists();
      ListsSpelled();
      FitMeans(userId, roomId, ch);
      ok := true;
      var room := Index(userId, roomId, ch);
      assert Spelled(was.Keys, was);
      hide Spelled;
      if room != null {
        room.HeaderIsMember();
        ok := LinkAmong(was, room, ch);
        ValuesAfter(old(rooms), roomId, room);
        SpelledExactly(was, room, ch);
      }
      ValidMeans(userId, ch);
      forall u | u in old(chs) && old(chs)[u] == ch
        ensures Valid() ==> u == userId
      {
        assert u in chs && chs[u] == ch;
      }
    }

    /** What the two ways not to be fit are. */
    lemma FitMeans(userId: int, roomId: int, ch: Channel)
      requires Valid()
      ensures Fit(userId, roomId, ch) <==> (forall u | u in chs && chs[u] == ch :: u == userId)
                                           && if roomId == NO_ROOM then Listed(ch) else Unlisted(Lists(), ch)
    {
      hide Distinct, Forwards, Backwards, Nth, Consistent, UserOk;
      if forall r | r in dir :: ch !in dir[r] {
        forall room | room in rooms.Values
          ensures ch !in room.members
        {
          var id := KeyOf(rooms, room);
          assert RoomOk(id);
        }
      } else {
        var r :| r in dir && ch in dir[r];
        assert RoomOk(r) && rooms[r] in Lists();
        assert ch in Lists()[rooms[r]];
      }
    }

    lemma ValidMeans(userId: int, ch: Channel)
      requires userId in chs && chs[userId] == ch
      ensures Valid() ==> Listed(ch) && forall u | u in chs && chs[u] == ch :: u == userId
      ensures Valid() ==> Spelled(rooms.Values, Lists())
    {
      if Valid() {
        ListsSpelled();
        assert forall u | u in chs :: UserOk(u);
      }
    }

    /** The second lock section, among the rooms that were there. */
    method LinkAmong(ghost was: map<Room, seq<Channel>>, room: Room, ch: Channel) returns (ok: bool)
      requires room.Valid() && !room.drop && room in Repr && this !in Repr
      requires Spelled(was.Keys, was)
      requires if room in was then room.members == was[room] else room.next == null
      modifies this`dir, room, room.Header()`prev, ch`prev, ch`next
      ensures ok && Relinked(was, room, ch)
      ensures old(Pending(room, ch)) ==> Valid() && dir == Joined(old(dir), room.id, ch)
    {
      hide Pending, AllBut, RoomsOk, Along, Distinct, Forwards, Backwards, Consistent;
      SpelledLists(was);
      ok := Link(room, ch);
      forall r | r in was
        ensures Along(was[r], ch, FirstOf(was, room))
      {
        StillAlong(was[r], ch, FirstOf(was, room));
      }
    }

    /** The lists of the rooms share no channel. */
    lemma ListsSpelled()
      requires Valid()
      ensures Spelled(rooms.Values, Lists())
      ensures forall r | r in rooms.Values :: r in Repr && forall c | c in Lists()[r] :: c in Repr
    {
      forall r | r in rooms.Values
        ensures r.Spells(r.members) && r.id in rooms && rooms[r.id] == r
      {
        var id := KeyOf(rooms, r);
        assert RoomOk(id);
      }
    }

    /** The first lock section of Put: the room is found or created, and the user is mapped. */
    method Index(userId: int, roomId: int, ch: Channel) returns (room: Room?)
      requires Valid()
      modifies this`rooms, this`chs, this`Repr, ch`room, ch`userId
      ensures ch.userId == userId && ch.room == (if room == null then old(ch.room) else room)
      ensures chs == old(chs)[userId := ch]
      ensures Repr == old(Repr) + {ch} + (if room == null then {} else {room}) && this !in Repr
      ensures if roomId == -1 then room == null && rooms == old(rooms)
              else room != null && room.id == roomId && rooms == old(rooms)[roomId := room]
      ensures room != null ==> room in Repr && room.Valid() && !room.drop
      ensures room != null && roomId in old(rooms) ==> room == old(rooms)[roomId]
      ensures room != null && roomId !in old(rooms) ==> fresh(room) && room.next == null && room.members == []
      ensures dir == old(dir)
      ensures old(Fit(userId, roomId, ch)) ==> if room == null then Valid() else Pending(room, ch)
    {
      hide Distinct, Forwards, Backwards, Nth, Consistent, RoomOk, UserOk;
      room := null;
      if roomId != NO_ROOM {
        room := RoomFor(roomId);
      }
      MapUser(userId, room, ch);
    }

    method RoomFor(roomId: int) returns (room: Room)
      requires Valid() && roomId != NO_ROOM
      modifies this`rooms, this`Repr
      ensures AllBut(room) && room.id == roomId && rooms == old(rooms)[roomId := room]
      ensures roomId in old(rooms) ==> room == old(rooms)[roomId]
      ensures roomId !in old(rooms) ==> fresh(room) && room.next == null && room.members == []
      ensures Repr == old(Repr) + {room}
    {
      hide Distinct, Forwards, Backwards, Nth;
      if roomId in rooms {
        room := rooms[roomId];
        assert RoomOk(roomId);
        assert rooms == rooms[roomId := room];
      } else {
        room := new Room(roomId);
        rooms := rooms[roomId := room];
        Repr := Repr + {room};
      }
      hide RoomOk, UserOk;
      forall r | r in dir
        ensures RoomOk(r)
      {
        RoomStays(r);
      }
      forall u | u in chs
        ensures UserOk(u)
      {
        UserStays(u);
      }
    }

    /** ch.Room = room; ch.userId = userId; b.chs[userId] = ch */
    method MapUser(userId: int, room: Room?, ch: Channel)
      requires AllBut(room)
      modifies this`chs, this`Repr, ch`room, ch`userId
      ensures ch.userId == userId && ch.room == (if room == null then old(ch.room) else room)
      ensures Repr == old(Repr) + {ch} && chs == old(chs)[userId := ch]
      ensures old(Fit(userId, if room == null then NO_ROOM else room.id, ch)) ==>
                if room == null then Valid() else Pending(room, ch)
    {
      hide Distinct, Forwards, Backwards, Nth, Consistent, Room.Linked;
      ghost var fit := Fit(userId, if room == null then NO_ROOM else room.id, ch);
      if room != null {
        ch.room := room;
      }
      ch.userId := userId;
      chs := chs[userId := ch];
      Repr := Repr + {ch};
      hide RoomOk, UserOk;
      if fit {
        forall r | r in rooms && (room == null || r != room.id)
          ensures RoomOk(r)
        {
          assert old(RoomOk(r));
          RoomStays(r);
        }
        assert RoomsOk(room);
        hide RoomsOk;
        forall u | u in chs && u != userId
          ensures UserOk(u)
        {
          assert old(UserOk(u));
          UserStays(u);
        }
        if room == null {
          MappedUserOk(userId);
        }
        hide Listed, UserOk;
      }
    }

    lemma MappedUserOk(u: int)
      requires u in chs && chs[u] in Repr && chs[u].userId == u && Listed(chs[u])
      ensures UserOk(u)
    {
    }

    /** A mapped channel whose room is still mapped, and which is still listed there. */
    twostate lemma UserStays(u: int)
      requires old(u in chs && chs[u] in Repr && UserOk(u))
      requires u in chs && chs[u] == old(chs[u]) && chs[u] in Repr
      requires chs[u].userId == old(chs[u].userId) && chs[u].room == old(chs[u].room)
      requires chs[u].room != null ==> Kept(chs[u].room.id) && chs[u] in dir[chs[u].room.id]
      ensures UserOk(u)
    {
    }

    /** A room is still mapped if it was, and still has members. */
    twostate predicate Kept(r: int)
      reads this
    {
      old(r in rooms) ==> r in rooms && r in dir && rooms[r] == old(rooms[r])
    }

    /** The second lock section of Put. */
    method Link(room: Room, ch: Channel) returns (ok: bool)
      requires room.Valid() && !room.drop && room in Repr && this !in Repr
      modifies this`dir, room, room.Header()`prev, ch`prev, ch`next
      ensures ok && room.Heads(ch, old(room.next))
      ensures old(Pending(room, ch)) ==> Valid() && dir == Joined(old(dir), room.id, ch)
    {
      hide Distinct, Forwards, Backwards, Nth, Consistent;
      ghost var pending := Pending(room, ch);
      room.HeaderIsMember();
      ok := room.Put(ch);
      if pending {
        dir := Joined(dir, room.id, ch);
        hide UserOk, RoomOk;
        forall r | r in rooms && r != room.id
          ensures r in dir && RoomOk(r)
        {
          RoomStays(r);
        }
        JoinedRoomOk(room.id);
        forall u | u in chs && u != ch.userId
          ensures UserOk(u)
        {
          UserStays(u);
        }
        MappedUserOk(ch.userId);
      }
      assert pending ==> RoomsOk(null);
      hide RoomsOk;
    }

    lemma JoinedRoomOk(r: int)
      requires r in rooms && r in dir && rooms[r] in Repr
      requires forall c | c in dir[r] :: c in Repr
      requires rooms[r].id == r && !rooms[r].drop && rooms[r].members == dir[r] && rooms[r].Valid()
      ensures RoomOk(r)
    {
    }

    // ---------- DeleteChannel ----------

    /** The channel that a deletion takes: that of the user of ch. */
    ghost function Victim(ch: Channel): Channel?
      reads this, ch
    {
      if ch.userId in chs then chs[ch.userId] else null
    }

    /** The room it is taken out of: that of the channel of the user whom the victim names. */
    ghost function VictimRoom(ch: Channel): Room?
      reads this, ch, chs.Values
    {
      var victim := Victim(ch);
      if victim != null && victim.userId in chs then chs[victim.userId].room else null
    }

    /** What a deletion writes besides the bucket: that room, and a link of each neighbour of the victim. */
    ghost function RoomLeft(ch: Channel): set<Room>
      reads this, ch, chs.Values
    {
      if VictimRoom(ch) == null then {} else {VictimRoom(ch)}
    }

    ghost function Before(ch: Channel): set<Channel>
      reads this, ch, chs.Values
    {
      if VictimRoom(ch) == null then {} else Only(Victim(ch).prev)
    }

    ghost function After(ch: Channel): set<Channel>
      reads this, ch, chs.Values
    {
      if VictimRoom(ch) == null then {} else Only(Victim(ch).next)
    }

    /** In a bucket as it should be all this is its own. */
    lemma WritesOwn(ch: Channel)
      requires Valid()
      ensures RoomLeft(ch) <= Repr && Before(ch) <= Repr && After(ch) <= Repr
    {
      hide Distinct, Forwards, Backwards, Nth, Consistent;
      if ch.userId in chs {
        assert UserOk(ch.userId);
        var room := chs[ch.userId].room;
        if room != null {
          assert RoomOk(room.id);
          room.NeighboursAreMembers(chs[ch.userId]);
        }
      }
    }

    /** Of any channel, in any bucket. The channel that the user of ch is mapped to is taken, and the entry that is
        removed is that of the user whom it names: so the entry of the user of ch goes exactly if the channel still
        names that user, and if it names one who is not mapped, the source dereferences nil. In a bucket as it should be
        the user's channel leaves its room, and the room goes with its last member. */
    method DeleteChannel(ch: Channel) returns (panicked: bool)
      modifies this, RoomLeft(ch), Before(ch)`next, After(ch)`prev
      ensures panicked <==> old(Victim(ch) != null && Victim(ch).userId !in chs)
      ensures chs == if panicked || old(Victim(ch)) == null then old(chs) else old(chs) - {old(Victim(ch).userId)}
      ensures old(Victim(ch)) != null ==> (ch.userId !in chs <==> old(Victim(ch).userId == ch.userId))
      ensures var room, victim := old(VictimRoom(ch)), old(Victim(ch));
              if room == null || victim == null then rooms == old(rooms) && dir == old(dir)
              else && room.Unlinked(victim, old(victim.prev), old(victim.next), old(room.next))
                   && room.onlineCount == old(room.onlineCount) - 1
                   && rooms == if room.onlineCount <= 0 then old(rooms) - {room.id} else old(rooms)
      ensures Repr == old(Repr)
      ensures old(Valid()) ==>
                !panicked && Valid() && View() == Unmapped(old(View()), ch.userId, old(RoomIdOf(ch.userId)))
    {
      hide Distinct, Forwards, Backwards, Nth, Without, Consistent;
      ghost var valid := Valid();
      panicked := false;
      if ch.userId in chs {
        var victim := chs[ch.userId];
        if victim.userId !in chs {
          return true;
        }
        assert valid ==> UserOk(ch.userId);
        var room := chs[victim.userId].room;
        assert valid && room != null ==> RoomOk(room.id);
        chs := chs - {victim.userId};
        if room != null {
          Leave(room, victim);
        }
      }
    }

    /** The bucket lists the channel in the room and maps nobody to it. */
    ghost predicate Leaving(room: Room, victim: Channel)
      reads this, Repr
    {
      && Valid() && room.id in dir && room.id in rooms && rooms[room.id] == room
      && victim in dir[room.id] && forall u | u in chs :: chs[u] != victim
    }

    /** The room part of DeleteChannel. */
    method Leave(room: Room, victim: Channel)
      modifies this`rooms, this`dir, room, Only(victim.next)`prev, Only(victim.prev)`next
      ensures room.Unlinked(victim, old(victim.prev), old(victim.next), old(room.next))
      ensures room.onlineCount == old(room.onlineCount) - 1
      ensures rooms == if room.onlineCount <= 0 then old(rooms) - {room.id} else old(rooms)
      ensures old(Leaving(room, victim)) ==> Valid() && dir == Left(old(dir), room.id, victim)
    {
      hide Left, RoomsOk, UserOk, RoomOk, Room.Unlinked;
      ghost var known := Leaving(room, victim);
      if known {
        LeftShrinks(dir, room.id, victim);
        Contained();
      }
      LeaveRoom(room, victim);
      if known {
        UsersLeft();
      }
    }

    method LeaveRoom(room: Room, victim: Channel)
      modifies this`rooms, this`dir, room, Only(victim.next)`prev, Only(victim.prev)`next
      ensures room.Unlinked(victim, old(victim.prev), old(victim.next), old(room.next))
      ensures room.onlineCount == old(room.onlineCount) - 1
      ensures rooms == if room.onlineCount <= 0 then old(rooms) - {room.id} else old(rooms)
      ensures old(Leaving(room, victim)) ==> dir == Left(old(dir), room.id, victim) && RoomsOk(null)
      ensures old(Leaving(room, victim)) ==> forall r :: r in rooms <==> r in dir
    {
      hide Distinct, Forwards, Backwards, Nth, Without, Consistent, Left, Room.Unlinked, RoomsOk, UserOk, RoomOk;
      ghost var known := Leaving(room, victim);
      if known {
        LeftPointwise(dir, room.id, victim);
        LeftShrinks(dir, room.id, victim);
        Contained();
      }
      var dropped := Detach(room, victim);
      if dropped && room.drop {
        rooms := rooms - {room.id};
      }
      if known {
        dir := Left(dir, room.id, victim);
        RoomsLeft(room.id);
      }
    }

    /** The rooms after one has lost a member and has gone if that was its last. */
    twostate lemma RoomsLeft(id: int)
      requires old(Valid() && id in rooms && id in dir) && Repr == old(Repr)
      requires forall r | r in rooms :: r in old(rooms) && rooms[r] == old(rooms)[r] && r in dir
      requires forall r | r in dir :: r in rooms && r in old(dir) && dir[r] != []
      requires forall r | r in dir :: forall c | c in dir[r] :: c in old(dir)[r]
      requires forall c: Channel | c in Repr :: c.room == old(c.room)
      requires id in rooms ==> var room := rooms[id]; room.Valid() && !room.drop && room.members == dir[id]
      requires forall r | r in rooms && r != id :: dir[r] == old(dir)[r] && unchanged(rooms[r])
      requires forall r | r in rooms && r != id ::
                 forall c | c in dir[r] :: c.next == old(c.next) && c.prev == old(c.prev)
      ensures RoomsOk(null)
    {
      hide Distinct, Forwards, Backwards, Nth, Consistent, UserOk;
      forall r | r in rooms
        ensures RoomOk(r)
      {
        assert old(RoomOk(r));
        if r != id {
          RoomStays(r);
        }
      }
      hide RoomOk;
      forall room | room in rooms.Values
        ensures room in Repr
      {
        var r := KeyOf(rooms, room);
        assert old(rooms)[r] in old(rooms).Values;
      }
      forall r, c: Channel | r in dir && c in dir[r]
        ensures c in Repr && c.room == rooms[r]
      {
        assert c in old(dir)[r];
      }
    }

    /** The users after a channel has left that none of them is mapped to. */
    twostate lemma UsersLeft()
      requires old(Valid()) && Repr == old(Repr) && chs == old(chs)
      requires forall r | r in rooms :: r in old(rooms) && rooms[r] == old(rooms)[r] && r in dir
      requires forall u | u in chs ::
                 chs[u].userId == old(chs[u].userId) && chs[u].room == old(chs[u].room)
                 && (chs[u].room != null ==> chs[u].room.id in rooms && chs[u] in dir[chs[u].room.id])
      ensures forall u | u in chs :: UserOk(u)
    {
      hide RoomsOk, RoomOk;
      forall u | u in chs
        ensures UserOk(u)
      {
        assert old(UserOk(u));
      }
    }

    /** room.DeleteChannel, which writes in no other list. */
    method Detach(room: Room, victim: Channel) returns (dropped: bool)
      modifies room, Only(victim.next)`prev, Only(victim.prev)`next
      ensures room.Unlinked(victim, old(victim.prev), old(victim.next), old(room.next))
      ensures room.onlineCount == old(room.onlineCount) - 1 && dropped == room.drop == (room.onlineCount <= 0)
      ensures old(Leaving(room, victim)) ==>
                && room.Valid() && dropped == (room.members == []) && room.members == Without(dir[room.id], victim)
                && forall r | r in rooms && r != room.id ::
                     rooms[r] != room && r in dir
                     && forall c | c in dir[r] :: c.next == old(c.next) && c.prev == old(c.prev)
    {
      hide Distinct, Forwards, Backwards, Nth, Without, UserOk;
      ghost var known := Leaving(room, victim);
      if known {
        assert RoomOk(room.id);
        forall r | r in rooms && r != room.id
          ensures rooms[r] != room && forall c | c in dir[r] :: c !in room.members
        {
          assert RoomOk(r);
        }
        DeleteKeepsConsistent(room.View(), victim);
        room.NeighboursAreMembers(victim);
      }
      dropped := room.DeleteChannel(victim);
    }

    method FindChannel(userId: int) returns (ch: Channel?)
      requires Valid()
      ensures ch == if userId in chs then chs[userId] else null
    {
      ch := if userId in chs then chs[userId] else null;
    }

    /** The push of PushSingleMsg to the channel of a user, if there is one. */
    method PushToUser(userId: int, msg: Msg)
      requires Valid()
      modifies (if userId in chs then {chs[userId]} else {})`broadcast
      ensures Valid()
      ensures userId in chs ==> var c := chs[userId];
                c in Repr
                && c.broadcast == if old(|c.broadcast|) < c.size then old(c.broadcast) + [msg] else old(c.broadcast)
    {
      hide Distinct, Forwards, Backwards, Nth;
      var ch := FindChannel(userId);
      if ch != null {
        ch.Push(msg);
      }
      hide RoomOk, UserOk;
      forall r | r in rooms
        ensures RoomOk(r)
      {
        RoomStays(r);
      }
      forall u | u in chs
        ensures UserOk(u)
      {
        UserStays(u);
      }
    }

    /** One round of a worker: the message reaches every member of the room, if there is such a room. */
    method PushRoom(roomId: int, msg: Msg)
      requires Valid()
      modifies MembersOf(dir, roomId)`broadcast
      ensures Valid()
      ensures forall c | c in MembersOf(dir, roomId) ::
                c.broadcast == if old(|c.broadcast|) < c.size then old(c.broadcast) + [msg] else old(c.broadcast)
    {
      hide Distinct, Forwards, Backwards, Nth;
      if roomId in rooms {
        assert RoomOk(roomId);
        rooms[roomId].Push(msg);
      }
    }
  }

  method InRoom(first: Channel) returns (b: Bucket)
    modifies first
    ensures fresh(b) && fresh(b.Repr - {first}) && b.Valid() && b.chs == map[1 := first] && b.dir == map[7 := [first]]
    ensures 7 in b.rooms && b.rooms[7] in b.Repr
    ensures first.userId == 1 && first.room == b.rooms[7]
  {
    hide Relinked, Spelled, Bucket.Lists, Bucket.AllBut, Consistent, Room.Linked;
    b := new Bucket();
    var _ := b.Put(1, 7, first);
    assert [first] + [] == [first];
    assert b.dir[7] == [first] && b.dir == map[7 := [first]];
    b.Known(7);
  }

  method TwoConnects(first: Channel, second: Channel) returns (b: Bucket)
    requires first != second && second.room == null
    modifies first, second
    ensures fresh(b) && b.chs == map[1 := second] && 7 in b.rooms && fresh(b.rooms[7])
    ensures b.rooms[7].Valid() && b.rooms[7].members == [first]
    ensures first.userId == 1 && first.room == b.rooms[7] && second.room == null
  {
    hide Relinked, Spelled, Bucket.AllBut, Consistent, Room.Linked, Unlisted;
    b := InRoom(first);
    assert b.Fit(1, NO_ROOM, second);
    hide Bucket.Fit, Bucket.Listed, Room.Valid;
    b.Known(7);
    var _ := b.Put(1, NO_ROOM, second);
    b.Known(7);
  }

  /** User 1 is in a room, connects again without one, and then user 2 connects on that second connection, in another
      bucket. No list is touched by this, but when the first connection ends the process panics. */
  method ThreeConnects(first: Channel, second: Channel) returns (b: Bucket, panicked: bool)
    requires first != second && second.room == null
    modifies first, second
    ensures panicked && 7 in b.rooms && b.rooms[7].Valid() && b.rooms[7].members == [first]
    ensures b.chs == map[1 := second] && second.userId == 2 && first.userId == 1 && first.room == b.rooms[7]
  {
    hide Relinked, Spelled, Bucket.Lists, Bucket.AllBut, Bucket.Fit, Unlisted, Room.Unlinked;
    b := TwoConnects(first, second);
    var other := new Bucket();
    var _ := other.Put(2, NO_ROOM, second);
    panicked := b.DeleteChannel(first);
  }
}
