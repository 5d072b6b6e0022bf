/** connect/server.go and the procedures of connect/rpc.go on the heap: a server is its buckets, each with the
    worker queues of BroadcastRoom, and the users are spread over the buckets by CityHash32. */
module Servers {
  import opened Options
  import opened Rooms
  import opened Connect
  import opened Buckets
  import opened Collections
  import opened Relinking
  import opened Placement
  import opened Sharding
  import Broadcast

  datatype RoomRequest = RoomRequest(roomId: int, msg: Msg)

  /** The worker queues of a bucket, filled in turn. */
  class Routines {
    var queues: seq<seq<RoomRequest>>
    var routinesNum: nat
    const routineSize: nat

    ghost predicate Valid()
      reads this
    {
      queues != [] && routinesNum < Broadcast.COUNTER_RANGE
      && forall k | 0 <= k < |queues| :: |queues[k]| <= routineSize
    }

    constructor (routineAmount: nat, routineSize: nat)
      requires routineAmount > 0
      ensures Valid() && routinesNum == 0 && this.routineSize == routineSize
      ensures queues == seq(routineAmount, _ => [])
    {
      queues, routinesNum := seq(routineAmount, _ => []), 0;
      this.routineSize := routineSize;
    }

    function Turn(): nat
      requires queues != []
      reads this
    {
      Broadcast.Slot(routinesNum, |queues|)
    }

    /** The request is at the end of the queue whose turn it was, and the turn has passed on. */
    twostate predicate Queued(req: RoomRequest)
      reads this
    {
      && old(Valid()) && Valid() && routinesNum == Broadcast.Bump(old(routinesNum))
      && var num := old(Turn()); queues == old(queues)[num := old(queues)[num] + [req]]
    }

    /** The send waits while the queue is full; this is the call from when it has a place. */
    method BroadcastRoom(req: RoomRequest)
      requires Valid() && |queues[Turn()]| < routineSize
      modifies this
      ensures Queued(req)
      ensures routinesNum == (old(routinesNum) + 1) % 0x1_0000_0000_0000_0000
      ensures var num := routinesNum % old(|queues|); queues == old(queues)[num := old(queues)[num] + [req]]
    {
      routinesNum := (routinesNum + 1) % Broadcast.COUNTER_RANGE;
      var num := routinesNum % |queues|;
      queues := queues[num := queues[num] + [req]];
    }
  }

  class Server {
    const buckets: seq<Bucket>
    /** Every mapped channel, whichever bucket it is in. */
    ghost var flat: map<int, Channel>
    ghost var Repr: set<object>

    ghost predicate Valid()
      reads this, Repr
    {
      && buckets != [] && this !in Repr
      && (forall i | 0 <= i < |buckets| :: buckets[i] in Repr && buckets[i].Repr <= Repr && buckets[i].Valid())
      && Apart()
      && (forall i | 0 <= i < |buckets| :: Holds(i))
    }

    /** The buckets share nothing. */
    ghost predicate Apart()
      reads buckets
    {
      forall i, j | 0 <= i < |buckets| && 0 <= j < |buckets| && i != j ::
        buckets[i] != buckets[j] && buckets[i] !in buckets[j].Repr && buckets[i].Repr !! buckets[j].Repr
    }

    /** Bucket i maps exactly the users whose hash leads to it. */
    ghost predicate Holds(i: nat)
      requires i < |buckets|
      reads this, buckets
    {
      forall u :: (u in buckets[i].chs <==> u in flat && Shard(u, |buckets|) == i)
               && (u in buckets[i].chs ==> buckets[i].chs[u] == flat[u])
    }

    ghost function Views(): (views: seq<BucketView<Channel>>)
      reads this, buckets
      ensures |views| == |buckets| && forall i | 0 <= i < |views| :: views[i] == buckets[i].View()
    {
      seq(|buckets|, i requires 0 <= i < |buckets| reads buckets => buckets[i].View())
    }

    /** The buckets map together the users of flat, each in the bucket of the user's hash. */
    ghost predicate AllHold()
      reads this, buckets
    {
      buckets != [] && forall i | 0 <= i < |buckets| :: Holds(i)
    }

    /** Every channel names the user whom it is mapped to. */
    ghost predicate Named()
      reads this, flat.Values
    {
      forall u | u in flat :: flat[u].userId == u
    }

    /** Of each channel, the user and the room that its fields name. */
    ghost function AllPlaces(): Places<Channel>
      reads this, Repr
    {
      map c: Channel | c in Repr :: Chan(c, c.userId, if c.room == null then NO_ROOM else c.room.id)
    }

    /** The buckets refine the flat server: each maps the users of its hash, and lists in a room exactly their
        channels that are in the room, each once. */
    ghost predicate Exact()
      reads this, Repr, buckets
    {
      Refines(Images(Views(), AllPlaces()), FlatImage(flat, AllPlaces()))
    }

    constructor (buckets: seq<Bucket>, ghost repr: set<object>)
      requires buckets != []
      requires forall i | 0 <= i < |buckets| ::
        && buckets[i] in repr && buckets[i].Repr <= repr && buckets[i].Valid()
        && buckets[i].View() == BucketView(map[], map[])
      requires forall i, j | 0 <= i < |buckets| && 0 <= j < |buckets| && i != j ::
        buckets[i] != buckets[j] && buckets[i] !in buckets[j].Repr && buckets[i].Repr !! buckets[j].Repr
      ensures Valid() && flat == map[] && this.buckets == buckets
      ensures Exact()
    {
      hide Bucket.AllBut, Shard;
      this.buckets := buckets;
      flat := map[];
      Repr := repr;
      new;
      assert Views() == seq(|buckets|, _ => BucketView(map[], map[]));
      NothingExact(|buckets|, AllPlaces());
    }

    /** Server.Bucket */
    function BucketOf(userId: int): (b: Bucket)
      requires buckets != []
      ensures b in buckets
    {
      buckets[Shard(userId, |buckets|)]
    }

    /** bucket.Channel of the user's bucket */
    method FindChannel(userId: int) returns (ch: Channel?)
      requires Valid()
      ensures ch == if userId in flat then flat[userId] else null
    {
      hide Bucket.AllBut, Shard;
      var i := Shard(userId, |buckets|);
      assert Holds(i);
      ch := buckets[i].FindChannel(userId);
    }

    // ---------- Put ----------

    /** The rooms of all buckets. */
    ghost function Rooms(): set<Room>
      reads buckets
    {
      set b, r | b in buckets && r in b.rooms.Values :: r
    }

    /** A channel that the server has never had. */
    ghost predicate New(roomId: int, ch: Channel)
      reads this, ch
    {
      ch !in Repr && (roomId == NO_ROOM ==> ch.room == null)
    }

    /** What readPump does when logic has accepted the user. Of any channel, and so for a second connect message of a
        connection: the user is mapped to it, in the bucket of the user's hash; users are mapped to channels that name
        them exactly if it served no other user; and the rooms of all buckets still have lists that share no channel
        exactly if it was in none of them. Of a new channel: nothing else changes, and the server stays exact exactly if
        the user had no channel in a room. */
    method Put(userId: int, roomId: int, ch: Channel) returns (ok: bool)
      requires Valid()
      modifies this, Repr, ch
      ensures ok && old(Repr) + {ch} <= Repr && fresh(Repr - old(Repr) - {ch})
      ensures flat == old(flat)[userId := ch] && AllHold()
      ensures Named() <==> old(forall u | u in flat && flat[u] == ch :: u == userId)
      ensures roomId != NO_ROOM ==>
                ((exists lists: map<Room, seq<Channel>> :: Spelled(Rooms(), lists))
            <==> forall b | b in buckets :: old(Unlisted(b.Lists(), ch)))
      ensures old(New(roomId, ch)) ==>
                && Valid()
                && var i := Shard(userId, |buckets|);
                   Views() == old(Views())[i := Mapped(old(Views())[i], userId, roomId, ch)]
      ensures old(New(roomId, ch) && Exact()) ==>
                (Exact() <==> old(userId in flat ==> flat[userId].room == null))
    {
      hide Server.Valid, AllHold, Named, Exact, Views, Rooms, Refines, Images, FlatImage, Mapped, Spelled, Unlisted,
        Shard, Bucket.Lists, At, Avoids, Placed;
      ghost var exact, was, views, places := New(roomId, ch) && Exact(), flat, Views(), AllPlaces();
      FlatKnown();
      if exact {
        Stranger(roomId, ch);
        if userId in flat {
          RoomNamed(userId);
        }
      }
      ok := Insert(userId, roomId, ch);
      NamedAfter(was, userId, ch);
      if exact {
        assert Replaced(places, AllPlaces(), ch, userId, roomId);
        hide *;
        PutExactly(views, Views(), was, places, AllPlaces(), ch, userId, roomId);
        ExactMeans();
      }
    }

    lemma FlatKnown()
      requires Valid()
      ensures forall u | u in flat :: flat[u] in Repr && flat[u].userId == u
    {
      hide Bucket.AllBut, Shard;
      forall u | u in flat
        ensures flat[u] in Repr && flat[u].userId == u
      {
        var i := Shard(u, |buckets|);
        assert Holds(i);
        buckets[i].Contained();
        assert buckets[i].chs[u] in buckets[i].chs.Values;
      }
    }

    lemma NamedAfter(was: map<int, Channel>, userId: int, ch: Channel)
      requires flat == was[userId := ch] && ch.userId == userId
      requires forall u | u in was && was[u] != ch :: was[u].userId == u
      ensures Named() <==> forall u | u in was && was[u] == ch :: u == userId
    {
      if Named() {
        forall u | u in was && was[u] == ch
          ensures u == userId
        {
          assert u in flat && flat[u] == ch;
        }
      }
    }

    lemma ExactMeans()
      ensures Exact() <==> Refines(Images(Views(), AllPlaces()), FlatImage(flat, AllPlaces()))
    {
    }

    /** A channel that the server has never had is nowhere. */
    lemma Stranger(roomId: int, ch: Channel)
      requires Valid() && New(roomId, ch)
      ensures buckets != [] && ch !in flat.Values && forall i | 0 <= i < |buckets| :: Avoids(Views()[i], ch)
      ensures Placed(AllPlaces()) && ch !in AllPlaces()
      ensures Exact() <==> Refines(Images(Views(), AllPlaces()), FlatImage(flat, AllPlaces()))
    {
      hide Bucket.AllBut, Shard;
      forall i | 0 <= i < |buckets|
        ensures Avoids(Views()[i], ch)
      {
        buckets[i].Contained();
      }
      forall u | u in flat
        ensures flat[u] != ch
      {
        var i := Shard(u, |buckets|);
        assert Holds(i);
        buckets[i].Contained();
        assert buckets[i].chs[u] in buckets[i].chs.Values;
      }
    }

    lemma RoomNamed(u: int)
      requires Valid() && u in flat
      ensures At(AllPlaces(), flat[u]).roomId == NO_ROOM <==> flat[u].room == null
    {
      hide Bucket.AllBut, Shard;
      var i := Shard(u, |buckets|);
      assert Holds(i);
      buckets[i].Contained();
      assert buckets[i].chs[u] in buckets[i].chs.Values;
    }

    /** Put, and what it leaves as it is. */
    method Insert(userId: int, roomId: int, ch: Channel) returns (ok: bool)
      requires Valid()
      modifies this, Repr, ch
      ensures ok && old(Repr) + {ch} <= Repr && fresh(Repr - old(Repr) - {ch})
      ensures flat == old(flat)[userId := ch] && AllHold()
      ensures forall c: Channel | c in Repr :: c in old(Repr) || c == ch
      ensures forall c: Channel | c in old(Repr) && c != ch :: c.userId == old(c.userId) && c.room == old(c.room)
      ensures ch.userId == userId
      ensures old(New(roomId, ch)) ==>
                if roomId == NO_ROOM then ch.room == null else ch.room != null && ch.room.id == roomId
      ensures roomId != NO_ROOM ==>
                ((exists lists: map<Room, seq<Channel>> :: Spelled(Rooms(), lists))
            <==> forall b | b in buckets :: old(Unlisted(b.Lists(), ch)))
      ensures old(New(roomId, ch)) ==>
                && Valid()
                && var i := Shard(userId, |buckets|);
                   Views() == old(Views())[i := Mapped(old(Views())[i], userId, roomId, ch)]
    {
      hide Bucket.AllBut, Shard, Joined, Spelled, Unlisted, Bucket.Lists, Bucket.Listed;
      var i := Shard(userId, |buckets|);
      var b := buckets[i];
      ghost var unused := New(roomId, ch);
      assert forall j | 0 <= j < |buckets| :: buckets[j] in Repr && buckets[j].Repr <= Repr;
      ok := PutAmong(i, userId, roomId, ch);
      Adopt(userId, ch, b.Repr);
      forall j | 0 <= j < |buckets|
        ensures Holds(j)
      {
        assert old(Holds(j));
      }
      hide Holds;
      if unused {
        forall j | 0 <= j < |buckets|
          ensures buckets[j].Valid() && (j != i ==> buckets[j].Repr == old(buckets[j].Repr))
        {
          assert old(buckets[j].Valid());
        }
      }
    }

    /** The new channel among those of the server. */
    ghost method Adopt(userId: int, ch: Channel, repr: set<object>)
      modifies this
      ensures flat == old(flat)[userId := ch] && Repr == old(Repr) + repr
      ensures (exists lists: map<Room, seq<Channel>> :: Spelled(Rooms(), lists))
         <==> old(exists lists: map<Room, seq<Channel>> :: Spelled(Rooms(), lists))
    {
      hide Separate, Distinct, Forwards, Backwards, Nth;
      Repr := Repr + repr;
      flat := flat[userId := ch];
      forall lists: map<Room, seq<Channel>>
        ensures Spelled(Rooms(), lists) == old(Spelled(Rooms(), lists))
      {
      }
      hide Spelled;
    }

    /** Bucket.Put, among the rooms of all buckets. */
    method PutAmong(i: nat, userId: int, roomId: int, ch: Channel) returns (ok: bool)
      requires Valid() && i < |buckets|
      modifies buckets[i], buckets[i].Repr, ch
      ensures ok && old(buckets[i].Repr) + {ch} <= buckets[i].Repr
                && fresh(buckets[i].Repr - old(buckets[i].Repr) - {ch})
      ensures forall c: Channel | c in buckets[i].Repr :: c in old(buckets[i].Repr) || c == ch
      ensures forall c: Channel | c in old(buckets[i].Repr) && c != ch ::
                c.userId == old(c.userId) && c.room == old(c.room)
      ensures ch.userId == userId && buckets[i].chs == old(buckets[i].chs)[userId := ch]
      ensures old(New(roomId, ch)) ==>
                if roomId == NO_ROOM then ch.room == null else ch.room != null && ch.room.id == roomId
      ensures old(New(roomId, ch)) ==>
                buckets[i].Valid() && buckets[i].View() == Mapped(old(buckets[i].View()), userId, roomId, ch)
      ensures roomId != NO_ROOM ==>
                ((exists lists: map<Room, seq<Channel>> :: Spelled(Rooms(), lists))
            <==> forall b | b in buckets :: old(Unlisted(b.Lists(), ch)))
    {
      hide Bucket.AllBut, Shard, Along, Spelled, Holds, Relinked, Beside, Bucket.Lists, PartsApart;
      ghost var parts := ListsApart();
      var b := buckets[i];
      ghost var rooms := b.rooms;
      assert New(roomId, ch) ==> b.Fit(userId, roomId, ch) by {
        b.Contained();
        assert forall u | u in b.chs :: b.chs[u] in b.chs.Values;
      }
      ok := b.Put(userId, roomId, ch);
      if roomId != NO_ROOM {
        ghost var target := b.rooms[roomId];
        forall j | 0 <= j < |parts| && j != i
          ensures Beside(parts[j], ch) && target !in parts[j]
        {
          PartStays(parts[j], ch);
          assert target in parts[i] || fresh(target);
        }
        ValuesAfter(rooms, roomId, target);
        RoomsAfter(parts, i, target);
        SpelledExactlyInParts(parts, i, target, ch, Rooms());
      }
    }

    lemma RoomsAfter(parts: seq<map<Room, seq<Channel>>>, i: nat, target: Room)
      requires |parts| == |buckets| && i < |parts|
      requires forall j | 0 <= j < |parts| ::
                 buckets[j].rooms.Values == if j == i then parts[j].Keys + {target} else parts[j].Keys
      ensures forall r :: r in Rooms() <==> r == target || InPart(parts, r)
    {
      forall r: Room
        ensures r in Rooms() <==> r == target || InPart(parts, r)
      {
        if r in Rooms() {
          var b :| b in buckets && r in b.rooms.Values;
          var j :| 0 <= j < |buckets| && buckets[j] == b;
          assert r in parts[j] || r == target;
        }
        if InPart(parts, r) {
          var j :| 0 <= j < |parts| && r in parts[j];
          assert r in buckets[j].rooms.Values;
        }
        assert r == target ==> r in buckets[i].rooms.Values;
      }
    }

    /** The lists of the buckets share no channel. */
    lemma ListsApart() returns (parts: seq<map<Room, seq<Channel>>>)
      requires Valid()
      ensures |parts| == |buckets| && PartsApart(parts)
      ensures forall i | 0 <= i < |parts| ::
                && parts[i] == buckets[i].Lists() && parts[i].Keys == buckets[i].rooms.Values
                && Spelled(parts[i].Keys, parts[i]) && Inside(parts[i], buckets[i].Repr)
    {
      hide Bucket.AllBut, Shard, Spelled, Holds;
      parts := [];
      for n := 0 to |buckets|
        invariant |parts| == n
        invariant forall i | 0 <= i < n ::
                    parts[i] == buckets[i].Lists()
                    && Spelled(parts[i].Keys, parts[i]) && Inside(parts[i], buckets[i].Repr)
      {
        buckets[n].ListsSpelled();
        parts := parts + [buckets[n].Lists()];
      }
      hide Bucket.Valid, Bucket.Lists;
    }

    // ---------- the end of a connection ----------

    /** What readPump and readDataFromTcp do when the connection ends, of any channel on any server: the bucket of its
        user deletes the channel that this user is mapped to, and the entry of the user whom that one names; the process
        panics if nobody is mapped for that. told is the room and the user that logic is told about; a channel that was
        never put is only closed. An exact server stays exact. */
    method Disconnect(ch: Channel) returns (told: Option<(int, int)>, panicked: bool)
      requires buckets != []
      modifies this, BucketOf(ch.userId), BucketOf(ch.userId).RoomLeft(ch),
        BucketOf(ch.userId).Before(ch)`next, BucketOf(ch.userId).After(ch)`prev
      ensures told == if ch.room == null || ch.userId == 0 || panicked then None else Some((ch.room.id, ch.userId))
      ensures panicked <==> old(ch.room != null && ch.userId != 0
                                && var v := BucketOf(ch.userId).Victim(ch);
                                   v != null && v.userId !in BucketOf(ch.userId).chs)
      ensures told == None ==> flat == old(flat) && Views() == old(Views()) && Repr == old(Repr)
      ensures old(AllHold()) ==> AllHold()
      ensures told != None && old(AllHold() && ch.userId in flat) ==>
                && flat == old(flat) - {old(flat[ch.userId].userId)}
                && (ch.userId !in flat <==> old(flat[ch.userId].userId == ch.userId))
      ensures old(Valid()) ==>
                && Valid() && !panicked && Repr == old(Repr)
                && (told != None ==>
                      && flat == old(flat) - {ch.userId}
                      && var i := Shard(ch.userId, |buckets|);
                         Views() == old(Views())[i := Unmapped(old(Views())[i], ch.userId,
                                                               old(buckets[i].RoomIdOf(ch.userId)))])
                && (old(Exact()) ==> Exact())
    {
      hide *;
      told, panicked := None, false;
      ghost var valid, exact, was, views, places := Valid(), Valid() && Exact(), flat, Views(), AllPlaces();
      if ch.room == null || ch.userId == 0 {
        return;
      }
      ghost var r := buckets[Shard(ch.userId, |buckets|)].RoomIdOf(ch.userId);
      if valid {
        Removed(ch.userId);
      }
      panicked := Remove(ch);
      if !panicked {
        told := Some((ch.room.id, ch.userId));
      }
      ExactMeans();
      if exact {
        DeleteKeepsExact(views, Views(), was, places, ch.userId, r);
      }
    }

    /** The room out of which the channel of a user will be deleted. */
    lemma Removed(u: int)
      requires Valid()
      ensures |buckets| > 0 && Placed(AllPlaces())
      ensures var i := Shard(u, |buckets|); u in Views()[i].chs ==>
                buckets[i].RoomIdOf(u) == At(AllPlaces(), Views()[i].chs[u]).roomId
      ensures Exact() <==> Refines(Images(Views(), AllPlaces()), FlatImage(flat, AllPlaces()))
    {
      hide Bucket.AllBut, Shard;
      var i := Shard(u, |buckets|);
      if u in buckets[i].chs {
        buckets[i].Contained();
        assert buckets[i].chs[u] in buckets[i].chs.Values;
      }
    }

    /** The deletion, and the map of all users after it. */
    method Remove(ch: Channel) returns (panicked: bool)
      requires buckets != []
      modifies this, BucketOf(ch.userId), BucketOf(ch.userId).RoomLeft(ch),
        BucketOf(ch.userId).Before(ch)`next, BucketOf(ch.userId).After(ch)`prev
      ensures var b := BucketOf(ch.userId);
              panicked <==> old(b.Victim(ch) != null && b.Victim(ch).userId !in b.chs)
      ensures panicked ==> flat == old(flat) && Views() == old(Views())
      ensures Repr == old(Repr)
      ensures old(AllHold()) ==> AllHold()
      ensures !panicked && old(AllHold() && ch.userId in flat) ==>
                && flat == old(flat) - {old(flat[ch.userId].userId)}
                && (ch.userId !in flat <==> old(flat[ch.userId].userId == ch.userId))
      ensures old(Valid()) ==>
                && Valid() && !panicked && flat == old(flat) - {ch.userId} && AllPlaces() == old(AllPlaces())
                && var i := Shard(ch.userId, |buckets|);
                   Views() == old(Views())[i := Unmapped(old(Views())[i], ch.userId,
                                                         old(buckets[i].RoomIdOf(ch.userId)))]
    {
      hide Bucket.AllBut, Shard, Unmapped, Room.Unlinked, Bucket.Valid, Bucket.Listed;
      ghost var i := Shard(ch.userId, |buckets|);
      ghost var valid, views := Valid(), Views();
      if valid {
        FlatKnown();
        buckets[i].WritesOwn(ch);
      }
      panicked := Forget(ch);
      if valid {
        forall j | 0 <= j < |buckets|
          ensures buckets[j].Valid() && buckets[j].Repr == old(buckets[j].Repr)
        {
          assert old(buckets[j].Valid());
        }
      }
    }

    method Forget(ch: Channel) returns (panicked: bool)
      requires buckets != []
      modifies this`flat, BucketOf(ch.userId), BucketOf(ch.userId).RoomLeft(ch),
        BucketOf(ch.userId).Before(ch)`next, BucketOf(ch.userId).After(ch)`prev
      ensures var b := BucketOf(ch.userId);
              && (panicked <==> old(b.Victim(ch) != null && b.Victim(ch).userId !in b.chs))
              && b.Repr == old(b.Repr) && (panicked ==> b.View() == old(b.View()))
              && (old(b.Valid() && this !in b.Repr) ==>
                    !panicked && b.Valid()
                    && b.View() == Unmapped(old(b.View()), ch.userId, old(b.RoomIdOf(ch.userId))))
      ensures panicked ==> flat == old(flat)
      ensures old(AllHold()) ==> AllHold()
      ensures !panicked && old(AllHold() && ch.userId in flat) ==> flat == old(flat) - {old(flat[ch.userId].userId)}
      ensures !panicked && old(AllHold() && ch.userId !in flat) ==> flat == old(flat)
    {
      hide Bucket.AllBut, Shard, Unmapped, Room.Unlinked, Bucket.Valid;
      var i := Shard(ch.userId, |buckets|);
      var b := buckets[i];
      ghost var hold, victim := AllHold(), b.Victim(ch);
      if hold {
        assert Holds(i);
        assert victim == if ch.userId in flat then flat[ch.userId] else null;
      }
      panicked := b.DeleteChannel(ch);
      if !panicked && victim != null {
        flat := flat - {victim.userId};
      }
      if hold {
        forall j | 0 <= j < |buckets|
          ensures Holds(j)
        {
          assert old(Holds(i)) && old(Holds(j));
        }
      }
      hide Holds;
    }

    // ---------- pushes ----------

    /** Of an exact server: the lists of a room, all buckets together, hold exactly the channels of flat that are in
        the room, each once and in the bucket of its user. So a push to the room in every bucket reaches these. */
    lemma FanOut(roomId: int)
      requires Valid() && Exact() && roomId != NO_ROOM
      ensures forall b | b in buckets ::
                && Distinct(MembersOf(b.dir, roomId))
                && forall c | c in MembersOf(b.dir, roomId) ::
                     && c.userId in flat && flat[c.userId] == c && b == BucketOf(c.userId)
                     && c.room != null && c.room.id == roomId
      ensures forall u | u in flat && flat[u].room != null && flat[u].room.id == roomId ::
                flat[u].userId == u && flat[u] in MembersOf(BucketOf(u).dir, roomId)
    {
      hide Bucket.AllBut, Shard, Exact, Distinct, Holds, Apart;
      forall i | 0 <= i < |buckets|
        ensures var b := buckets[i];
                && Distinct(MembersOf(b.dir, roomId))
                && forall c | c in MembersOf(b.dir, roomId) ::
                     && c.userId in flat && flat[c.userId] == c && b == BucketOf(c.userId)
                     && c.room != null && c.room.id == roomId
      {
        buckets[i].Contained();
        ListsExactly(i, roomId);
      }
      forall u | u in flat && flat[u].room != null && flat[u].room.id == roomId
        ensures flat[u].userId == u && flat[u] in MembersOf(BucketOf(u).dir, roomId)
      {
        MappedHere(u);
        ListsExactly(Shard(u, |buckets|), roomId);
      }
    }

    lemma MappedHere(u: int)
      requires Valid() && Exact() && u in flat
      ensures flat[u] in Repr && flat[u].userId == u
    {
      hide Bucket.AllBut, Shard, Apart, Refines, Images, FlatImage;
      var i := Shard(u, |buckets|);
      assert Holds(i);
      hide Holds;
      buckets[i].Contained();
      assert buckets[i].chs[u] in buckets[i].chs.Values;
      UserNamed(Views(), flat, AllPlaces(), u);
    }

    /** Which channels one bucket lists in a room. */
    lemma ListsExactly(i: nat, roomId: int)
      requires Valid() && Exact() && roomId != NO_ROOM && i < |buckets|
      ensures Distinct(MembersOf(buckets[i].dir, roomId))
      ensures forall c: Channel | c in Repr ::
                c in MembersOf(buckets[i].dir, roomId) <==>
                && c.userId in flat && flat[c.userId] == c && Shard(c.userId, |buckets|) == i
                && c.room != null && c.room.id == roomId
    {
      hide Bucket.AllBut, Shard, Refines, Images, FlatImage, Distinct, Holds, Apart, MembersOf;
      ghost var places := AllPlaces();
      ListedOnce(Views(), flat, places, i, roomId);
      forall c: Channel | c in Repr
        ensures c in MembersOf(buckets[i].dir, roomId) <==>
                && c.userId in flat && flat[c.userId] == c && Shard(c.userId, |buckets|) == i
                && c.room != null && c.room.id == roomId
      {
        ListedExactly(Views(), flat, places, i, roomId, c);
        assert At(places, c) == Chan(c, c.userId, if c.room == null then NO_ROOM else c.room.id);
      }
    }

    /** The message goes to the mailbox of the user's channel, and to no other. */
    method PushSingleMsg(userId: int, msg: Msg)
      requires Valid()
      modifies (if userId in flat then {flat[userId]} else {})`broadcast
      ensures Valid()
      ensures userId in flat ==> var c := flat[userId];
                c.broadcast == if old(|c.broadcast|) < c.size then old(c.broadcast) + [msg] else old(c.broadcast)
    {
      hide Bucket.AllBut, Shard;
      var i := Shard(userId, |buckets|);
      assert Holds(i);
      buckets[i].PushToUser(userId, msg);
      forall j | 0 <= j < |buckets|
        ensures Holds(j) && buckets[j].Valid()
      {
        assert old(Holds(j)) && old(buckets[j].Valid());
      }
      hide Holds;
    }
  }

  /** PushRoomMsg, and likewise PushRoomCount and PushRoomInfo: the request is queued once in every bucket. */
  method PushRoomMsg(routines: seq<Routines>, req: RoomRequest)
    requires forall i, j | 0 <= i < j < |routines| :: routines[i] != routines[j]
    requires forall r | r in routines :: r.Valid() && |r.queues[r.Turn()]| < r.routineSize
    modifies routines
    ensures forall i | 0 <= i < |routines| :: routines[i].Queued(req)
  {
    for n := 0 to |routines|
      invariant forall i | 0 <= i < n :: routines[i].Queued(req)
      invariant forall i | n <= i < |routines| :: unchanged(routines[i])
    {
      routines[n].BroadcastRoom(req);
    }
  }
}
