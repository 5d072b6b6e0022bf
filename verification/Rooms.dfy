/** A room as a value: what Room.Put and Room.DeleteChannel of connect/room.go do to it. */
module Rooms {
  /** members is the intrusive list from its header on. */
  datatype RoomView<C(==)> = RoomView(id: int, onlineCount: int, drop: bool, members: seq<C>)

  ghost predicate Distinct<C>(s: seq<C>) {
    forall i, j | 0 <= i < j < |s| :: s[i] != s[j]
  }

  lemma PrependDistinct<C>(s: seq<C>, c: C)
    ensures Distinct([c] + s) <==> Distinct(s) && c !in s
  {
    var t := [c] + s;
    assert t[0] == c && t[1..] == s;
    if Distinct(t) {
      forall i, j | 0 <= i < j < |s|
        ensures s[i] != s[j] && s[j] != c && s[i] != c
      {
        assert t[i + 1] == s[i] && t[j + 1] == s[j];
      }
      assert |s| > 0 ==> t[1] == s[0];
    }
  }

  /** A live room counts its members; a dropped room has none and a count that is not positive. */
  ghost predicate Consistent<C>(r: RoomView<C>) {
    && Distinct(r.members)
    && (if r.drop then r.members == [] && r.onlineCount <= 0 else r.onlineCount == |r.members|)
  }

  /** A room as NewRoom makes it. */
  lemma EmptyRoomConsistent<C>(id: int)
    ensures Consistent(RoomView<C>.RoomView(id, 0, false, []))
  {
  }

  function Without<C(==)>(s: seq<C>, c: C): (t: seq<C>)
    ensures forall x | x in t :: x in s
    ensures forall x | x in s && x != c :: x in t
    ensures |t| == if c in s then |s| - 1 else |s|
  {
    if s == [] then [] else if s[0] == c then s[1..] else [s[0]] + Without(s[1..], c)
  }

  /** Put links a channel in front, unless the room has been dropped. */
  function AfterPut<C>(r: RoomView<C>, c: C): RoomView<C> {
    if r.drop then r else r.(onlineCount := r.onlineCount + 1, members := [c] + r.members)
  }

  /** DeleteChannel unlinks a channel. One that was never linked has no neighbours,
      so unlinking it sets the header to its null successor. */
  function AfterDelete<C(==)>(r: RoomView<C>, c: C): RoomView<C> {
    var count := r.onlineCount - 1;
    RoomView(r.id, count, count <= 0, if c in r.members then Without(r.members, c) else [])
  }

  lemma {:induction false} WithoutAt<C>(s: seq<C>, k: nat)
    requires k < |s| && Distinct(s)
    ensures Without(s, s[k]) == s[..k] + s[k + 1..]
  {
    if k == 0 {
      assert s[..0] + s[1..] == s[1..];
    } else {
      assert s[1..][k - 1] == s[k];
      WithoutAt(s[1..], k - 1);
      assert [s[0]] + (s[1..][..k - 1] + s[1..][k..]) == s[..k] + s[k + 1..];
    }
  }

  lemma WithoutDistinct<C>(s: seq<C>, c: C)
    requires Distinct(s)
    ensures Distinct(Without(s, c)) && c !in Without(s, c)
  {
    if c in s {
      var k :| 0 <= k < |s| && s[k] == c;
      WithoutAt(s, k);
    } else {
      WithoutAbsent(s, c);
    }
  }

  lemma {:induction false} WithoutAbsent<C>(s: seq<C>, c: C)
    requires c !in s
    ensures Without(s, c) == s
  {
    if s != [] {
      WithoutAbsent(s[1..], c);
    }
  }

  /** Put keeps a room consistent exactly if the channel was not in its list or the room had been dropped,
      and can neither drop a room nor revive a dropped one. */
  lemma PutKeepsConsistent<C>(r: RoomView<C>, c: C)
    requires Consistent(r)
    ensures Consistent(AfterPut(r, c)) <==> r.drop || c !in r.members
    ensures AfterPut(r, c).drop == r.drop && (c in AfterPut(r, c).members <==> !r.drop)
  {
    PrependDistinct(r.members, c);
  }

  /** DeleteChannel keeps a room consistent exactly for a member, for a dropped room, and for a live room with at most
      one member. The room is dropped exactly when nobody is left or its list was lost with its last member. */
  lemma DeleteExactly<C>(r: RoomView<C>, c: C)
    requires Consistent(r)
    ensures Consistent(AfterDelete(r, c)) <==> c in r.members || r.drop || |r.members| <= 1
  {
    WithoutDistinct(r.members, c);
  }

  /** Deleting a member, or a channel that the dropped room had refused: the list loses that channel only, and the
      room is dropped exactly when nobody is left, and stays dropped. */
  lemma DeleteKeepsConsistent<C>(r: RoomView<C>, c: C)
    requires Consistent(r) && (c in r.members || r.drop)
    ensures var r' := AfterDelete(r, c);
            Consistent(r') && (r.drop ==> r'.drop) && (r'.drop <==> r'.members == [])
            && forall x :: x in r'.members <==> x in r.members && x != c
  {
    WithoutDistinct(r.members, c);
  }

  /** A deletion takes back a Put: list and count are as before, and an emptied room is dropped. */
  lemma DeleteUndoesPut<C>(r: RoomView<C>, c: C)
    requires Consistent(r) && !r.drop && c !in r.members
    ensures AfterDelete(AfterPut(r, c), c) == r.(drop := r.members == [])
  {
    assert ([c] + r.members)[1..] == r.members;
  }

  // ---------- all the rooms of a bucket ----------

  /** The members of each mapped room. */
  type Directory<C> = map<int, seq<C>>

  function MembersOf<C>(d: Directory<C>, roomId: int): seq<C> {
    if roomId in d then d[roomId] else []
  }

  /** A channel joins a room; the room is created by its first member. */
  function Joined<C>(d: Directory<C>, roomId: int, c: C): Directory<C> {
    d[roomId := [c] + MembersOf(d, roomId)]
  }

  /** A channel leaves a room; the room goes with its last member. */
  function Left<C(==)>(d: Directory<C>, roomId: int, c: C): Directory<C> {
    var rest := Without(MembersOf(d, roomId), c);
    if rest == [] then d - {roomId} else d[roomId := rest]
  }

  lemma LeftPointwise<C>(d: Directory<C>, roomId: int, c: C)
    requires roomId in d
    ensures var d' := Left(d, roomId, c); var rest := Without(d[roomId], c);
            && (forall r | r != roomId :: (r in d' <==> r in d) && (r in d ==> d'[r] == d[r]))
            && (roomId in d' <==> rest != []) && (rest != [] ==> d'[roomId] == rest)
  {
  }

  lemma LeftShrinks<C>(d: Directory<C>, roomId: int, c: C)
    requires roomId in d
    ensures forall r | r in Left(d, roomId, c) :: r in d && forall x | x in Left(d, roomId, c)[r] :: x in d[r]
    ensures forall r | r in d :: forall x | x in d[r] && x != c :: r in Left(d, roomId, c) && x in Left(d, roomId, c)[r]
    ensures roomId in Left(d, roomId, c) ==> Left(d, roomId, c)[roomId] != []
  {
  }

  const NO_ROOM: int := -1

  /** A bucket as a value: the channel of each user, and the members of each room. */
  datatype BucketView<C> = BucketView(chs: map<int, C>, dir: Directory<C>)

  /** Bucket.Put of a channel that no list holds. */
  function Mapped<C>(b: BucketView<C>, userId: int, roomId: int, c: C): BucketView<C> {
    BucketView(b.chs[userId := c], if roomId == NO_ROOM then b.dir else Joined(b.dir, roomId, c))
  }

  /** Bucket.DeleteChannel of whichever channel the user is mapped to; roomId is that channel's room. */
  function Unmapped<C(==)>(b: BucketView<C>, userId: int, roomId: int): BucketView<C> {
    if userId !in b.chs then b
    else BucketView(b.chs - {userId}, if roomId == NO_ROOM then b.dir else Left(b.dir, roomId, b.chs[userId]))
  }
}
