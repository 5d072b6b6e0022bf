/** Buckets of channel objects, seen as buckets of channels as values: what Sharding proves is carried over
    to the server on the heap. */
module Placement {
  import opened Rooms
  import opened Sharding

  /** Of each channel, the user and the room its fields name. */
  type Places<C(==)> = map<C, Chan<C>>

  /** Each channel is placed as itself. */
  ghost predicate Placed<C>(f: Places<C>) {
    forall c | c in f :: f[c].id == c
  }

  ghost function At<C>(f: Places<C>, c: C): Chan<C> {
    if c in f then f[c] else Chan(c, 0, NO_ROOM)
  }

  ghost function ImageList<C>(s: seq<C>, f: Places<C>): seq<Chan<C>> {
    seq(|s|, i requires 0 <= i < |s| => At(f, s[i]))
  }

  ghost function Image<C>(v: BucketView<C>, f: Places<C>): BucketView<Chan<C>> {
    BucketView(map u | u in v.chs :: At(f, v.chs[u]), map r | r in v.dir :: ImageList(v.dir[r], f))
  }

  ghost function Images<C>(vs: seq<BucketView<C>>, f: Places<C>): Shards<C> {
    seq(|vs|, i requires 0 <= i < |vs| => Image(vs[i], f))
  }

  ghost function FlatImage<C>(flat: map<int, C>, f: Places<C>): Flat<C> {
    map u | u in flat :: At(f, flat[u])
  }

  /** The bucket neither maps nor lists the channel. */
  ghost predicate Avoids<C>(v: BucketView<C>, c: C) {
    c !in v.chs.Values && forall r | r in v.dir :: c !in v.dir[r]
  }

  /** f' places c where a Put does, and all others where f does. */
  ghost predicate Replaced<C>(f: Places<C>, f': Places<C>, c: C, u: int, r: int) {
    f'.Keys == f.Keys + {c} && f'[c] == Chan(c, u, r) && forall x | x in f && x != c :: f'[x] == f[x]
  }

  lemma AvoidingImage<C>(v: BucketView<C>, f: Places<C>, f': Places<C>, c: C, u: int, r: int)
    requires Avoids(v, c) && Replaced(f, f', c, u, r)
    ensures Image(v, f') == Image(v, f)
  {
    forall q | q in v.dir
      ensures ImageList(v.dir[q], f') == ImageList(v.dir[q], f)
    {
      assert forall x | x in v.dir[q] :: x != c;
    }
    forall x | x in v.chs
      ensures At(f', v.chs[x]) == At(f, v.chs[x])
    {
      assert v.chs[x] in v.chs.Values;
    }
  }

  lemma MappedImage<C>(v: BucketView<C>, f: Places<C>, f': Places<C>, c: C, u: int, r: int)
    requires Avoids(v, c) && Replaced(f, f', c, u, r)
    ensures Image(Mapped(v, u, r, c), f') == Mapped(Image(v, f), u, r, Chan(c, u, r))
  {
    AvoidingImage(v, f, f', c, u, r);
    var i, i' := Image(v, f), Image(Mapped(v, u, r, c), f');
    assert i'.chs == i.chs[u := Chan(c, u, r)];
    assert ImageList([c] + MembersOf(v.dir, r), f') == [Chan(c, u, r)] + ImageList(MembersOf(v.dir, r), f');
    assert i'.dir == Mapped(i, u, r, Chan(c, u, r)).dir;
  }

  lemma {:induction false} WithoutImage<C>(s: seq<C>, f: Places<C>, c: C)
    requires Placed(f)
    ensures ImageList(Without(s, c), f) == Without(ImageList(s, f), At(f, c))
  {
    if s != [] {
      WithoutImage(s[1..], f, c);
      var t := ImageList(s, f);
      assert t[1..] == ImageList(s[1..], f);
      assert t[0] == At(f, s[0]) && (t[0] == At(f, c) <==> s[0] == c);
      if s[0] != c {
        assert ImageList([s[0]] + Without(s[1..], c), f) == [t[0]] + ImageList(Without(s[1..], c), f);
      }
    }
  }

  lemma UnmappedImage<C>(v: BucketView<C>, f: Places<C>, u: int, r: int)
    requires Placed(f)
    ensures Image(Unmapped(v, u, r), f) == Unmapped(Image(v, f), u, r)
  {
    if u in v.chs {
      var c := v.chs[u];
      WithoutImage(MembersOf(v.dir, r), f, c);
      hide Without;
      var i, i' := Image(v, f), Image(Unmapped(v, u, r), f);
      assert i'.chs == i.chs - {u};
      assert i'.dir == Unmapped(i, u, r).dir;
    }
  }

  /** Put of a new channel in the bucket of its user is Put of its image. */
  lemma PutImages<C>(vs: seq<BucketView<C>>, vs': seq<BucketView<C>>, f: Places<C>, f': Places<C>, c: C, u: int, r: int)
    requires |vs| > 0 && vs' == vs[Shard(u, |vs|) := Mapped(vs[Shard(u, |vs|)], u, r, c)]
    requires Replaced(f, f', c, u, r) && forall i | 0 <= i < |vs| :: Avoids(vs[i], c)
    ensures Images(vs', f') == Put(Images(vs, f), Chan(c, u, r))
  {
    hide Shard, Image, Mapped, Avoids, Replaced;
    forall i | 0 <= i < |vs|
      ensures Images(vs', f')[i] == Put(Images(vs, f), Chan(c, u, r))[i]
    {
      AvoidingImage(vs[i], f, f', c, u, r);
      MappedImage(vs[i], f, f', c, u, r);
    }
  }

  /** DeleteChannel of a user, out of the room that the user's channel names, is Delete of the images. */
  lemma DeleteImages<C>(vs: seq<BucketView<C>>, vs': seq<BucketView<C>>, f: Places<C>, u: int, r: int)
    requires |vs| > 0 && Placed(f) && vs' == vs[Shard(u, |vs|) := Unmapped(vs[Shard(u, |vs|)], u, r)]
    requires var v := vs[Shard(u, |vs|)]; u in v.chs ==> r == At(f, v.chs[u]).roomId
    ensures Images(vs', f) == Delete(Images(vs, f), u)
  {
    hide Shard, Image, At, Without, Unmapped, Mapped, Placed;
    var i := Shard(u, |vs|);
    UnmappedImage(vs[i], f, u, r);
    UserImage(vs[i], f, u);
    UnmappedNobody(Image(vs[i], f), u, r);
    assert Delete(Images(vs, f), u) == Images(vs, f)[i := Unmapped(Image(vs[i], f), u, r)];
  }

  lemma UserImage<C>(v: BucketView<C>, f: Places<C>, u: int)
    ensures if u in v.chs then u in Image(v, f).chs && Image(v, f).chs[u] == At(f, v.chs[u]) else u !in Image(v, f).chs
  {
  }

  lemma UnmappedNobody<C>(v: BucketView<C>, u: int, r: int)
    ensures u !in v.chs ==> Unmapped(v, u, r) == Unmapped(v, u, NO_ROOM)
  {
  }

  lemma PutFlat<C>(flat: map<int, C>, f: Places<C>, f': Places<C>, c: C, u: int, r: int)
    requires Replaced(f, f', c, u, r) && Placed(f) && c !in f && c !in flat.Values
    ensures FlatImage(flat[u := c], f') == FlatImage(flat, f)[u := Chan(c, u, r)]
    ensures Chan(c, u, r) !in FlatImage(flat, f).Values
  {
    forall x | x in flat
      ensures At(f', flat[x]) == At(f, flat[x]) && At(f, flat[x]).id != c
    {
      assert flat[x] in flat.Values;
    }
  }

  /** Put of a new channel keeps the server exact exactly if its user has no channel in a room. */
  lemma PutExactly<C>(vs: seq<BucketView<C>>, vs': seq<BucketView<C>>, flat: map<int, C>, f: Places<C>, f': Places<C>,
                      c: C, u: int, r: int)
    requires |vs| > 0 && vs' == vs[Shard(u, |vs|) := Mapped(vs[Shard(u, |vs|)], u, r, c)]
    requires Replaced(f, f', c, u, r) && forall i | 0 <= i < |vs| :: Avoids(vs[i], c)
    requires Placed(f) && c !in f && c !in flat.Values
    requires Refines(Images(vs, f), FlatImage(flat, f))
    ensures Refines(Images(vs', f'), FlatImage(flat[u := c], f')) <==> (u in flat ==> At(f, flat[u]).roomId == NO_ROOM)
  {
    PutImages(vs, vs', f, f', c, u, r);
    PutFlat(flat, f, f', c, u, r);
    hide Shard, Refines, Images, At;
    PutRefines(Images(vs, f), FlatImage(flat, f), Chan(c, u, r));
  }

  lemma DeleteKeepsExact<C>(vs: seq<BucketView<C>>, vs': seq<BucketView<C>>, flat: map<int, C>,
                              f: Places<C>, u: int, r: int)
    requires |vs| > 0 && Placed(f) && vs' == vs[Shard(u, |vs|) := Unmapped(vs[Shard(u, |vs|)], u, r)]
    requires var v := vs[Shard(u, |vs|)]; u in v.chs ==> r == At(f, v.chs[u]).roomId
    requires Refines(Images(vs, f), FlatImage(flat, f))
    ensures Refines(Images(vs', f), FlatImage(flat - {u}, f))
  {
    DeleteImages(vs, vs', f, u, r);
    hide *;
    DeleteRefines(Images(vs, f), FlatImage(flat, f), u);
    DeleteFlat(flat, f, u);
  }

  lemma DeleteFlat<C>(flat: map<int, C>, f: Places<C>, u: int)
    ensures FlatImage(flat - {u}, f) == FlatImage(flat, f) - {u}
  {
  }

  lemma NothingExact<C>(n: nat, f: Places<C>)
    requires n > 0
    ensures Refines(Images<C>(seq(n, _ => BucketView(map[], map[])), f), FlatImage(map[], f))
  {
    hide Shard;
    EmptyRefines<C>(n);
    var none: BucketView<C> := BucketView(map[], map[]);
    assert Image(none, f) == BucketView(map[], map[]);
    assert Images(seq(n, _ => none), f) == seq(n, _ => BucketView(map[], map[]));
    assert FlatImage<C>(map[], f) == map[];
  }

  lemma ImageOfList<C>(v: BucketView<C>, f: Places<C>, r: int, c: C)
    requires Placed(f)
    ensures MembersOf(Image(v, f).dir, r) == ImageList(MembersOf(v.dir, r), f)
    ensures c in MembersOf(v.dir, r) <==> At(f, c) in MembersOf(Image(v, f).dir, r)
  {
    var s := MembersOf(v.dir, r);
    if c in s {
      var k :| 0 <= k < |s| && s[k] == c;
      assert ImageList(s, f)[k] == At(f, c);
    }
    if At(f, c) in ImageList(s, f) {
      var k :| 0 <= k < |s| && ImageList(s, f)[k] == At(f, c);
      assert At(f, s[k]).id == s[k] && At(f, c).id == c;
    }
  }

  lemma DistinctImage<C>(s: seq<C>, f: Places<C>)
    requires Distinct(ImageList(s, f))
    ensures Distinct(s)
  {
    forall i, j | 0 <= i < j < |s|
      ensures s[i] != s[j]
    {
      assert ImageList(s, f)[i] != ImageList(s, f)[j];
    }
  }

  lemma UserNamed<C>(vs: seq<BucketView<C>>, flat: map<int, C>, f: Places<C>, u: int)
    requires Refines(Images(vs, f), FlatImage(flat, f)) && u in flat
    ensures At(f, flat[u]).userId == u
  {
    hide Images, BucketRefines, At;
    assert FlatImage(flat, f)[u] == At(f, flat[u]);
  }

  /** Of an exact server: bucket i lists in a room, once each, the channels of its users that are in the room. */
  lemma ListedOnce<C>(vs: seq<BucketView<C>>, flat: map<int, C>, f: Places<C>, i: nat, r: int)
    requires Placed(f) && Refines(Images(vs, f), FlatImage(flat, f)) && i < |vs|
    ensures Distinct(MembersOf(vs[i].dir, r))
  {
    hide Shard;
    assert BucketRefines(Images(vs, f)[i], i, |vs|, FlatImage(flat, f));
    assert MembersOf(Image(vs[i], f).dir, r) == ImageList(MembersOf(vs[i].dir, r), f);
    DistinctImage(MembersOf(vs[i].dir, r), f);
  }

  lemma ListedExactly<C>(vs: seq<BucketView<C>>, flat: map<int, C>, f: Places<C>, i: nat, r: int, c: C)
    requires Placed(f) && Refines(Images(vs, f), FlatImage(flat, f)) && i < |vs|
    ensures var p := At(f, c);
            c in MembersOf(vs[i].dir, r) <==>
            p.userId in flat && flat[p.userId] == c && p.roomId == r && r != NO_ROOM && Shard(p.userId, |vs|) == i
  {
    var p, b, g := At(f, c), Image(vs[i], f), FlatImage(flat, f);
    assert Images(vs, f)[i] == b && BucketRefines(b, i, |vs|, g);
    InBucket(b, i, |vs|, g, r, p);
    ImageOfList(vs[i], f, r, c);
    hide Image, Images, BucketRefines, Refines, Shard, Distinct, MembersOf;
    assert p.userId in flat ==> At(f, flat[p.userId]).id == flat[p.userId] && p.id == c;
  }
}
