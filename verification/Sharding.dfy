/** connect/server.go and the directory calls of connect/rpc.go: users spread over buckets by CityHash32.
    The sharded server refines one flat map from users to channels. */
module Sharding {
  import opened Collections
  import opened Options
  import opened Rooms
  import City32
  import Short = City32Short
  import Values = City32Values
  import Arithmetic
  import Words
  import Decimals

  /** A channel as a value; userId and roomId are the fields that Bucket.Put sets. */
  datatype Chan<C(==)> = Chan(id: C, userId: int, roomId: int)

  type Shards<C(==)> = seq<BucketView<Chan<C>>>
  type Flat<C(==)> = map<int, Chan<C>>

  /** CityHash32 of the decimal user id, modulo the number of buckets. */
  function Shard(userId: int, buckets: nat): (i: nat)
    requires buckets > 0
    ensures i < buckets
  {
    var text := Decimals.Bytes(Decimals.Decimal(userId));
    Words.Nat32(City32.CityHash32(text, |text| % Words.TWO32)) % buckets
  }

  function Put<C(==)>(s: Shards<C>, c: Chan<C>): (s': Shards<C>)
    requires |s| > 0
    ensures |s'| == |s|
  {
    hide Shard;
    var i := Shard(c.userId, |s|);
    s[i := Mapped(s[i], c.userId, c.roomId, c)]
  }

  function Delete<C(==)>(s: Shards<C>, u: int): (s': Shards<C>)
    requires |s| > 0
    ensures |s'| == |s|
  {
    hide Shard;
    var i := Shard(u, |s|);
    s[i := Unmapped(s[i], u, if u in s[i].chs then s[i].chs[u].roomId else NO_ROOM)]
  }

  function Lookup<C(==)>(s: Shards<C>, u: int): Option<Chan<C>>
    requires |s| > 0
  {
    var chs := s[Shard(u, |s|)].chs;
    if u in chs then Some(chs[u]) else None
  }

  /** The channels that a push to the room reaches in the first n buckets, in order. */
  function Reached<C(==)>(s: Shards<C>, room: int, n: nat): seq<Chan<C>>
    requires n <= |s|
  {
    if n == 0 then [] else Reached(s, room, n - 1) + MembersOf(s[n - 1].dir, room)
  }

  /** The flat room: the channels of the users who are in it. */
  ghost function RoomOf<C>(f: Flat<C>, room: int): set<Chan<C>> {
    set u | u in f && f[u].roomId == room :: f[u]
  }

  /** c serves a user of shard i and is in the room. */
  ghost predicate Listed<C>(f: Flat<C>, n: nat, i: nat, room: int, c: Chan<C>)
    requires n > 0
  {
    c.userId in f && f[c.userId] == c && c.roomId == room && room != NO_ROOM && Shard(c.userId, n) == i
  }

  ghost predicate BucketRefines<C>(b: BucketView<Chan<C>>, i: nat, n: nat, f: Flat<C>)
    requires n > 0
  {
    && (forall u :: u in b.chs <==> u in f && Shard(u, n) == i)
    && (forall u | u in b.chs :: b.chs[u] == f[u])
    && (forall r | r in b.dir ::
            b.dir[r] != [] && Distinct(b.dir[r]) && forall c | c in b.dir[r] :: Listed(f, n, i, r, c))
    && (forall u | u in f && Listed(f, n, i, f[u].roomId, f[u]) :: f[u] in MembersOf(b.dir, f[u].roomId))
  }

  ghost predicate Refines<C>(s: Shards<C>, f: Flat<C>) {
    && |s| > 0
    && (forall u | u in f :: f[u].userId == u)
    && (forall i | 0 <= i < |s| :: BucketRefines(s[i], i, |s|, f))
  }

  /** A bucket lists exactly the channels that serve its users in a room. */
  lemma InBucket<C>(b: BucketView<Chan<C>>, i: nat, n: nat, f: Flat<C>, r: int, c: Chan<C>)
    requires n > 0 && BucketRefines(b, i, n, f)
    ensures c in MembersOf(b.dir, r) <==> Listed(f, n, i, r, c)
  {
    hide Shard, Distinct;
    if Listed(f, n, i, r, c) {
      assert Listed(f, n, i, f[c.userId].roomId, f[c.userId]);
    }
  }

  lemma EmptyRefines<C>(n: nat)
    requires n > 0
    ensures Refines<C>(seq(n, i => BucketView(map[], map[])), map[])
  {
  }

  /** A new channel keeps the refinement exactly when its user has no channel in a room:
      otherwise the channel that loses its mapping stays in its list. */
  lemma PutRefines<C>(s: Shards<C>, f: Flat<C>, c: Chan<C>)
    requires Refines(s, f) && c !in f.Values
    ensures Refines(Put(s, c), f[c.userId := c]) <==> (c.userId in f ==> f[c.userId].roomId == NO_ROOM)
  {
    hide Shard, Distinct;
    var n, u := |s|, c.userId;
    var i, f', s' := Shard(u, n), f[u := c], Put(s, c);
    if u in f && f[u].roomId != NO_ROOM {
      var lost := f[u];
      assert Listed(f, n, i, lost.roomId, lost);
      assert lost in MembersOf(s[i].dir, lost.roomId);
      assert lost in MembersOf(s'[i].dir, lost.roomId);
      assert !Listed(f', n, i, lost.roomId, lost);
      assert !BucketRefines(s'[i], i, n, f');
    } else {
      forall j | 0 <= j < n
        ensures BucketRefines(s'[j], j, n, f')
      {
        PutBucket(s[j], j, n, f, c);
      }
    }
  }

  lemma PutBucket<C>(b: BucketView<Chan<C>>, j: nat, n: nat, f: Flat<C>, c: Chan<C>)
    requires n > 0 && j < n && BucketRefines(b, j, n, f) && c !in f.Values
    requires forall u | u in f :: f[u].userId == u
    requires c.userId in f ==> f[c.userId].roomId == NO_ROOM
    ensures BucketRefines(if j == Shard(c.userId, n) then Mapped(b, c.userId, c.roomId, c) else b,
                          j, n, f[c.userId := c])
  {
    hide Shard;
    PrependDistinct(MembersOf(b.dir, c.roomId), c);
    assert Distinct<Chan<C>>([]);
    hide Distinct;
    var here := j == Shard(c.userId, n);
    var b', f' := if here then Mapped(b, c.userId, c.roomId, c) else b, f[c.userId := c];
    forall r, x
      ensures x in MembersOf(b'.dir, r) <==> Listed(f', n, j, r, x)
    {
      assert x in MembersOf(b.dir, r) <==> Listed(f, n, j, r, x);
    }
    assert c in MembersOf(b.dir, c.roomId) <==> Listed(f, n, j, c.roomId, c);
  }

  /** Deleting a user's channel always keeps the refinement. */
  lemma DeleteRefines<C>(s: Shards<C>, f: Flat<C>, u: int)
    requires Refines(s, f)
    ensures Refines(Delete(s, u), f - {u})
  {
    hide Shard, Distinct;
    var n, s' := |s|, Delete(s, u);
    forall j | 0 <= j < n
      ensures BucketRefines(s'[j], j, n, f - {u})
    {
      DeleteBucket(s[j], j, n, f, u);
    }
  }

  lemma DeleteBucket<C>(b: BucketView<Chan<C>>, j: nat, n: nat, f: Flat<C>, u: int)
    requires n > 0 && j < n && BucketRefines(b, j, n, f)
    requires forall u | u in f :: f[u].userId == u
    ensures BucketRefines(if j == Shard(u, n) then Unmapped(b, u, if u in b.chs then b.chs[u].roomId else NO_ROOM)
                          else b, j, n, f - {u})
  {
    hide Shard, Distinct, Without;
    var f' := f - {u};
    if j == Shard(u, n) && u in b.chs {
      var c := b.chs[u];
      var b' := Unmapped(b, u, c.roomId);
      if c.roomId != NO_ROOM {
        assert Listed(f, n, j, c.roomId, c);
        assert c in MembersOf(b.dir, c.roomId);
        WithoutDistinct(b.dir[c.roomId], c);
        LeftPointwise(b.dir, c.roomId, c);
      }
      forall r, x
        ensures x in MembersOf(b'.dir, r) <==> Listed(f', n, j, r, x)
      {
        assert x in MembersOf(b.dir, r) <==> Listed(f, n, j, r, x);
      }
    } else {
      forall r, x
        ensures x in MembersOf(b.dir, r) <==> Listed(f', n, j, r, x)
      {
        assert x in MembersOf(b.dir, r) <==> Listed(f, n, j, r, x);
      }
    }
  }

  /** The sharded lookup finds a channel exactly when the flat map has it. */
  lemma LookupRefines<C>(s: Shards<C>, f: Flat<C>, u: int)
    requires Refines(s, f)
    ensures Lookup(s, u) == if u in f then Some(f[u]) else None
  {
    assert BucketRefines(s[Shard(u, |s|)], Shard(u, |s|), |s|, f);
  }

  /** A push to a room, sent to every bucket, reaches each channel of the flat room once and nobody else. */
  lemma FanOutReachesRoom<C>(s: Shards<C>, f: Flat<C>, room: int)
    requires Refines(s, f) && room != NO_ROOM
    ensures multiset(Reached(s, room, |s|)) == multiset(RoomOf(f, room))
  {
    hide *;
    var reached, flat := multiset(Reached(s, room, |s|)), multiset(RoomOf(f, room));
    forall c | c in reached || c in flat
      ensures reached[c] == flat[c]
    {
      ReachedCount(s, f, room, |s|, c);
    }
    SameCounts(reached, flat);
  }

  lemma {:induction false} ReachedCount<C>(s: Shards<C>, f: Flat<C>, room: int, n: nat, c: Chan<C>)
    requires Refines(s, f) && room != NO_ROOM && n <= |s|
    ensures multiset(Reached(s, room, n))[c] == if c in RoomOf(f, room) && Shard(c.userId, |s|) < n then 1 else 0
  {
    hide Shard, Distinct, MembersOf, BucketRefines;
    if n > 0 {
      ReachedCount(s, f, room, n - 1, c);
      PartCount(s[n - 1], f, room, n - 1, |s|, c);
    }
  }

  lemma PartCount<C>(b: BucketView<Chan<C>>, f: Flat<C>, room: int, i: nat, n: nat, c: Chan<C>)
    requires n > 0 && BucketRefines(b, i, n, f)
    ensures multiset(MembersOf(b.dir, room))[c] == if Listed(f, n, i, room, c) then 1 else 0
  {
    hide Shard;
    assert c in MembersOf(b.dir, room) <==> Listed(f, n, i, room, c);
    DistinctCount(MembersOf(b.dir, room), c);
  }

  lemma {:induction false} DistinctCount<C>(s: seq<Chan<C>>, c: Chan<C>)
    requires Distinct(s)
    ensures multiset(s)[c] == if c in s then 1 else 0
  {
    if s != [] {
      assert s == [s[0]] + s[1..];
      DistinctCount(s[1..], c);
    }
  }

  // ---------- runs ----------

  datatype Op<C(==)> = PutOp(c: Chan<C>) | DeleteOp(u: int)

  function Run<C(==)>(s: Shards<C>, ops: seq<Op<C>>): (s': Shards<C>)
    requires |s| > 0
    ensures |s'| == |s|
    decreases |ops|
  {
    hide Put, Delete;
    if ops == [] then s
    else match ops[0] case PutOp(c) => Run(Put(s, c), ops[1..]) case DeleteOp(u) => Run(Delete(s, u), ops[1..])
  }

  function FlatRun<C(==)>(f: Flat<C>, ops: seq<Op<C>>): Flat<C>
    decreases |ops|
  {
    if ops == [] then f
    else match ops[0]
         case PutOp(c) => FlatRun(f[c.userId := c], ops[1..])
         case DeleteOp(u) => FlatRun(f - {u}, ops[1..])
  }

  /** Every Put brings a new channel for a user who is in no room. */
  ghost predicate Admissible<C>(f: Flat<C>, ops: seq<Op<C>>)
    decreases |ops|
  {
    ops != [] ==> match ops[0]
      case PutOp(c) =>
        c !in f.Values && (c.userId in f ==> f[c.userId].roomId == NO_ROOM)
        && Admissible(f[c.userId := c], ops[1..])
      case DeleteOp(u) => Admissible(f - {u}, ops[1..])
  }

  lemma {:induction false} RunRefines<C>(s: Shards<C>, f: Flat<C>, ops: seq<Op<C>>)
    requires Refines(s, f) && Admissible(f, ops)
    ensures Refines(Run(s, ops), FlatRun(f, ops))
    decreases |ops|
  {
    hide BucketRefines, Put, Delete;
    if ops != [] {
      match ops[0]
      case PutOp(c) =>
        PutRefines(s, f, c);
        RunRefines(Put(s, c), f[c.userId := c], ops[1..]);
      case DeleteOp(u) =>
        DeleteRefines(s, f, u);
        RunRefines(Delete(s, u), f - {u}, ops[1..]);
    }
  }

  // ---------- which bucket? ----------

  /** The key of a user. */
  function Key(u: int): Words.Bytes { Decimals.Bytes(Decimals.Decimal(u)) }

  lemma ShardIs(u: int, buckets: nat)
    requires buckets > 0 && |Key(u)| < Words.TWO32
    ensures Shard(u, buckets) == Words.Nat32(City32.CityHash32(Key(u), |Key(u)|)) % buckets
  {
    hide City32.CityHash32, Words.Nat32;
    Arithmetic.Small(|Key(u)|, Words.TWO32);
  }

  lemma SameBucketExactly(u: int, v: int, n: nat)
    requires |Key(u)| == |Key(v)| == n && n <= 24
    ensures Shard(u, Words.TWO32) == Shard(v, Words.TWO32)
       <==> City32.CityHash32(Key(u), n) == City32.CityHash32(Key(v), n)
  {
    hide City32.CityHash32, Words.Nat32, Words.Word32, Shard, Key;
    ShardIs(u, Words.TWO32);
    ShardIs(v, Words.TWO32);
    var g, h := City32.CityHash32(Key(u), n), City32.CityHash32(Key(v), n);
    Words.WordOfValue(g);
    Words.WordOfValue(h);
    Arithmetic.Small(Words.Nat32(g), Words.TWO32);
    Arithmetic.Small(Words.Nat32(h), Words.TWO32);
  }

  lemma WholeKey(u: int, v: int, n: nat)
    requires |Key(u)| == |Key(v)| == n
    ensures Key(u)[..n] == Key(v)[..n] <==> u == v
  {
    assert Key(u)[..n] == Key(u) && Key(v)[..n] == Key(v);
    if Key(u) == Key(v) {
      Decimals.BytesInjective(u, v);
    }
  }

  /** With as many buckets as there are hashes, users whose ids have the same number of characters, and whose keys agree
      in all loads but one, share a bucket only if they are one. */
  lemma OneLoadApart(u: int, v: int, n: nat, k: nat)
    requires |Key(u)| == |Key(v)| == n && 5 <= n <= 24 && k < |Short.Offsets(n)|
    requires forall i | 0 <= i < |Short.Offsets(n)| && i != k ::
               Short.LoadAt(Key(u), n, i) == Short.LoadAt(Key(v), n, i)
    ensures Shard(u, Words.TWO32) == Shard(v, Words.TWO32) <==> u == v
  {
    hide City32.CityHash32, Shard, Key, Short.LoadAt;
    SameBucketExactly(u, v, n);
    Short.NoCollisionInOneLoad(Key(u), Key(v), n, k);
    WholeKey(u, v, n);
  }

  /** So do neighbours, users whose ids differ in the last digit only, from 5 to 20 digits except 8. */
  lemma NeighboursApart(u: nat, v: nat)
    requires u >= 10 && v >= 10 && u / 10 == v / 10 && 5 <= |Key(u)| <= 20 && |Key(u)| != 8
    ensures |Key(v)| == |Key(u)|
    ensures Shard(u, Words.TWO32) == Shard(v, Words.TWO32) <==> u == v
  {
    var n := |Key(u)|;
    TenthsAgree(u, v, 4 * ((n - 1) / 4));
    hide City32.CityHash32, Shard, Key;
    SameBucketExactly(u, v, n);
    Short.NoCollisionInLastWord(Key(u), Key(v), n);
    WholeKey(u, v, n);
  }

  lemma TenthsAgree(u: nat, v: nat, m: nat)
    requires u >= 10 && v >= 10 && u / 10 == v / 10 && m < |Key(u)|
    ensures |Key(v)| == |Key(u)| && Key(u)[..m] == Key(v)[..m]
  {
    Decimals.TenthIsPrefix(u);
    Decimals.TenthIsPrefix(v);
    var s, t, n := Key(u), Key(v), |Key(u)| - 1;
    assert s[..n][..m] == s[..m] && t[..n][..m] == t[..m];
    hide Key;
  }

  /** The configured number of buckets. */
  const CONFIGURED: nat := 4

  lemma KeysOfUsers()
    ensures Key(12345) == [49, 50, 51, 52, 53] && Key(12346) == [49, 50, 51, 52, 54]
  {
    hide Decimals.Bytes, Decimals.Decimal, Decimals.Digits;
    Decimals.BytesOfDigits(1);
    Decimals.BytesOfDigits(12);
    Decimals.BytesOfDigits(123);
    Decimals.BytesOfDigits(1234);
    Decimals.BytesOfDigits(12345);
    Decimals.BytesOfDigits(12346);
    assert Key(1) == [49] && Key(12) == [49, 50] && Key(123) == [49, 50, 51] && Key(1234) == [49, 50, 51, 52];
  }

  /** Where two neighbours are, with the configured number of buckets. */
  lemma BucketsOfUsers()
    ensures Shard(12345, CONFIGURED) == 1 && Shard(12346, CONFIGURED) == 0
  {
    hide City32.CityHash32, Shard, Key;
    KeysOfUsers();
    Values.User12345();
    Values.User12346();
    ShardIs(12345, CONFIGURED);
    ShardIs(12346, CONFIGURED);
    Words.WordOfValue(0xaf9cc651);
    assert Words.Nat32(0xaf9cc651) == 0xaf9cc651 && Words.Nat32(0x1d65eb34) == 0x1d65eb34;
  }

  /** The users from 0 to 9 are in ten different buckets, if there are as many buckets as hashes. */
  lemma DigitUsersApart(d: nat, e: nat)
    requires d < e < 10
    ensures Shard(d, Words.TWO32) != Shard(e, Words.TWO32)
  {
    hide City32.CityHash32, Shard;
    KeyOfDigit(d);
    KeyOfDigit(e);
    SameBucketExactly(d, e, 1);
    Values.DigitsApart(d, e);
  }

  lemma KeyOfDigit(d: nat)
    requires d < 10
    ensures Key(d) == Values.DIGIT_KEYS[d]
  {
    hide Decimals.Bytes, Decimals.Decimal;
    Decimals.BytesOfDigits(d);
    assert [] + [Decimals.ASCII_DIGITS[d]] == [Decimals.ASCII_DIGITS[d]];
  }
}
