/** What Room.Put does to a whole set of rooms when nothing is known of the channel: it may be in the list of
    the room already, or in that of another room, as when a connection sends a second connect message. */
module Relinking {
  import opened Rooms
  import opened Connect

  ghost function ChannelsOf(lists: map<Room, seq<Channel>>): set<Channel> {
    set r, c | r in lists && c in lists[r] :: c
  }

  /** The pointers of the rooms spell out lists that share no channel. */
  ghost predicate Spelled(rooms: set<Room>, lists: map<Room, seq<Channel>>)
    reads rooms, ChannelsOf(lists)
  {
    && lists.Keys == rooms
    && (forall r | r in rooms :: assert forall c | c in lists[r] :: c in ChannelsOf(lists); r.Spells(lists[r]))
    && Separate(lists)
  }

  /** No two rooms have a channel in common. */
  ghost predicate Separate(lists: map<Room, seq<Channel>>) {
    forall r, q | r in lists && q in lists && r != q :: forall c | c in lists[r] :: c !in lists[q]
  }

  /** The same, of the lists that the rooms have. */
  lemma SpelledLists(was: map<Room, seq<Channel>>)
    requires Spelled(was.Keys, was)
    ensures forall r | r in was :: Distinct(was[r]) && r.next == Nth(was[r], 0) && Along(was[r], null, null)
    ensures Separate(was)
  {
  }

  /** The rooms and the channels of the lists are all in repr. */
  ghost predicate Inside(lists: map<Room, seq<Channel>>, repr: set<object>) {
    forall r | r in lists :: r in repr && forall c | c in lists[r] :: c in repr
  }

  /** No list has the channel in it. */
  ghost predicate Unlisted(was: map<Room, seq<Channel>>, ch: Channel) {
    forall r | r in was :: ch !in was[r]
  }

  ghost function FirstOf(was: map<Room, seq<Channel>>, r: Room): Channel? {
    if r in was then Nth(was[r], 0) else null
  }

  /** The pointers along a list, those of ch apart, and the way back from its first channel if that is first. */
  ghost predicate Along(m: seq<Channel>, ch: Channel?, first: Channel?)
    reads m
  {
    && (forall i | 0 <= i < |m| && m[i] != ch :: m[i].next == Nth(m, i + 1))
    && (forall i | 0 <= i < |m| && m[i] != ch && m[i] != first :: m[i].prev == Nth(m, i - 1))
  }

  /** A list along which nothing was written but at ch and before what was first. */
  twostate lemma StillAlong(m: seq<Channel>, new ch: Channel, new first: Channel?)
    requires old(Along(m, null, null))
    requires forall c | c in m && c != ch :: c.next == old(c.next)
    requires forall c | c in m && c != ch && c != first :: c.prev == old(c.prev)
    ensures Along(m, ch, first)
  {
    forall i | 0 <= i < |m| && m[i] != ch
      ensures m[i].next == Nth(m, i + 1) && (m[i] != first ==> m[i].prev == Nth(m, i - 1))
    {
      assert m[i] in m;
      assert old(m[i].next == Nth(m, i + 1) && m[i].prev == Nth(m, i - 1));
    }
  }

  /** The rooms had the lists was, which shared no channel; then ch was put in front of the list of target, and
      nothing else was written. A target that had no list is a new room. */
  ghost predicate Relinked(was: map<Room, seq<Channel>>, target: Room, ch: Channel)
    reads *
  {
    && (forall r | r in was :: Distinct(was[r]) && Along(was[r], ch, FirstOf(was, target)))
    && Separate(was)
    && (forall r | r in was && r != target :: r.next == Nth(was[r], 0))
    && target.Heads(ch, FirstOf(was, target))
  }

  /** A list that is spelled from the first of m on is m at least up to ch. */
  lemma {:induction false} PrefixAgrees(s: seq<Channel>, m: seq<Channel>, k: nat)
    requires k < |m| && Forwards(s) && Nth(s, 0) == m[0]
    requires forall j | 0 <= j < k :: m[j].next == Nth(m, j + 1)
    ensures k < |s| && s[k] == m[k]
  {
    if k > 0 {
      PrefixAgrees(s, m, k - 1);
      assert s[k - 1].next == Nth(s, k);
    }
  }

  /** m was a list with ch in it, and now ch comes before its first element: no list starts with ch. */
  lemma Cyclic(s: seq<Channel>, m: seq<Channel>, ch: Channel)
    requires Distinct(m) && ch in m && ch.next == Nth(m, 0)
    requires forall i | 0 <= i < |m| && m[i] != ch :: m[i].next == Nth(m, i + 1)
    requires s != [] && s[0] == ch && Forwards(s)
    ensures !Distinct(s)
  {
    var k :| 0 <= k < |m| && m[k] == ch;
    assert s[0].next == Nth(s, 1);
    var t := s[1..];
    assert forall i | 0 <= i < |t| :: t[i] == s[i + 1] && s[i + 1].next == Nth(s, i + 2);
    assert Forwards(t);
    PrefixAgrees(t, m, k);
    hide Forwards;
    assert s[k + 1] == s[0];
  }

  /** The list of a room afterwards, if the channel was in no list. */
  ghost function ListOf(was: map<Room, seq<Channel>>, target: Room, ch: Channel, r: Room): seq<Channel> {
    var before := if r in was then was[r] else [];
    if r == target then [ch] + before else before
  }

  lemma NewSpells(was: map<Room, seq<Channel>>, target: Room, ch: Channel, r: Room)
    requires Relinked(was, target, ch) && Unlisted(was, ch) && (r in was || r == target)
    ensures r.Spells(ListOf(was, target, ch, r))
  {
    var s, before := ListOf(was, target, ch, r), if r in was then was[r] else [];
    if r == target {
      PrependDistinct(before, ch);
    }
    forall i | 0 <= i < |s|
      ensures s[i].next == Nth(s, i + 1) && s[i].prev == Nth(s, i - 1)
    {
      var j := if r == target then i - 1 else i;
      assert j >= 0 ==> s[i] == before[j] && before[j] in before;
      assert j > 0 ==> before[j] != before[0];
      if r != target && j >= 0 && target in was && was[target] != [] {
        assert before[j] !in was[target] && was[target][0] in was[target];
      }
    }
  }

  lemma NeverSpelled(was: map<Room, seq<Channel>>, target: Room, ch: Channel, r: Room, lists: map<Room, seq<Channel>>)
    requires Relinked(was, target, ch) && r in was && ch in was[r]
    ensures !Spelled(was.Keys + {target}, lists)
  {
    if lists.Keys == was.Keys + {target} && target.Spells(lists[target]) && r.Spells(lists[r]) {
      var m := was[r];
      if r == target {
        Cyclic(lists[r], m, ch);
      } else {
        var k :| 0 <= k < |m| && m[k] == ch;
        PrefixAgrees(lists[r], m, k);
        assert ch in lists[r] && lists[target][0] == ch;
      }
    }
  }

  /** For any set of rooms: after ch was put, the pointers of all of them still spell out lists that share no
      channel exactly if ch had been in none of their lists. */
  lemma SpelledExactly(was: map<Room, seq<Channel>>, target: Room, ch: Channel)
    requires Relinked(was, target, ch)
    ensures (exists lists: map<Room, seq<Channel>> :: Spelled(was.Keys + {target}, lists)) <==> Unlisted(was, ch)
  {
    hide Relinked;
    if Unlisted(was, ch) {
      NewStaysSpelled(was, target, ch);
    } else {
      var r :| r in was && ch in was[r];
      forall lists: map<Room, seq<Channel>>
        ensures !Spelled(was.Keys + {target}, lists)
      {
        NeverSpelled(was, target, ch, r, lists);
      }
    }
  }

  lemma NewStaysSpelled(was: map<Room, seq<Channel>>, target: Room, ch: Channel)
    requires Relinked(was, target, ch) && Unlisted(was, ch)
    ensures Spelled(was.Keys + {target}, map r | r in was.Keys + {target} :: ListOf(was, target, ch, r))
  {
    forall r | r in was.Keys + {target}
      ensures r.Spells(ListOf(was, target, ch, r))
    {
      NewSpells(was, target, ch, r);
    }
    hide Room.Spells, Along;
  }

  /** Of a single other room: it is linked as it was exactly if ch was not in its list, or was alone in it
      and went to a room without members. */
  lemma StaysLinkedExactly(was: map<Room, seq<Channel>>, target: Room, ch: Channel, r: Room)
    requires Relinked(was, target, ch) && r in was && r != target && r.members == was[r]
    ensures r.Linked() <==> ch !in was[r] || (was[r] == [ch] && FirstOf(was, target) == null)
  {
    var m, first := was[r], FirstOf(was, target);
    if ch in m {
      var k :| 0 <= k < |m| && m[k] == ch;
      assert r.Linked() ==> m[k].next == Nth(m, k + 1) && m[k].prev == Nth(m, k - 1);
      if first != null {
        assert first in was[target] && first !in m;
      }
    } else {
      forall i | 0 <= i < |m|
        ensures m[i].next == Nth(m, i + 1) && m[i].prev == Nth(m, i - 1)
      {
        assert m[i] in m;
        if first != null {
          assert first in was[target] && first !in m;
        }
      }
    }
  }

  // ---------- the two ways to go wrong ----------

  /** A new room that the channels have entered, the last one first. */
  method RoomOf(id: int, cs: seq<Channel>) returns (room: Room)
    requires Distinct(cs)
    modifies cs
    ensures fresh(room) && room.id == id && room.Valid() && !room.drop && room.members == cs
  {
    hide Distinct, Without, Nth, Consistent, Forwards, Backwards;
    room := new Room(id);
    for i := |cs| downto 0
      invariant room.Valid() && room.View() == RoomView(id, |cs| - i, false, cs[i..])
    {
      NotAmongLater(cs, i);
      room.HeaderIsMember();
      var _ := room.Put(cs[i]);
      assert [cs[i]] + cs[i + 1..] == cs[i..];
    }
  }

  lemma NotAmongLater(cs: seq<Channel>, i: nat)
    requires Distinct(cs) && i < |cs|
    ensures cs[i] !in cs[i + 1..]
  {
  }

  /** A connection in room a asks for room b: b is as it should be, but of a's members y is lost, and the walk over
      a runs on into b. */
  method SecondRoom(x: Channel, ch: Channel, y: Channel, z: Channel) returns (a: Room, b: Room)
    requires Distinct([x, ch, y, z])
    modifies x, ch, y, z
    ensures a.members == [x, ch, y] && a.onlineCount == 3 && !a.Linked()
    ensures b.members == [ch, z] && b.Valid()
    ensures a.next == x && x.next == ch && ch.next == z && z.next == null
  {
    var all := [x, ch, y, z];
    assert all[0] == x && all[1] == ch && all[2] == y && all[3] == z;
    a := RoomOf(1, [x, ch, y]);
    b := RoomOf(2, [z]);
    assert a.members[0].next == ch;
    var _ := b.Put(ch);
    assert b.members[1].next == null && a.members[1].next == z;
  }

  /** A connection asks again for the room it is in: the walk over the room never ends. */
  method SameRoom(x: Channel, ch: Channel) returns (a: Room)
    requires x != ch
    modifies x, ch
    ensures a.members == [ch, x, ch] && a.onlineCount == 3
    ensures a.next == ch && ch.next == x && x.next == ch
  {
    a := RoomOf(1, [x, ch]);
    assert a.members[0].next == ch;
    var _ := a.Put(ch);
  }

  // ---------- rooms in several parts ----------

  /** Rooms of different parts are different, and their lists share no channel. */
  ghost predicate PartsApart(parts: seq<map<Room, seq<Channel>>>) {
    forall i, j | 0 <= i < |parts| && 0 <= j < |parts| && i != j ::
      forall r, q | r in parts[i] && q in parts[j] :: r != q && forall c | c in parts[i][r] :: c !in parts[j][q]
  }

  ghost predicate InPart(parts: seq<map<Room, seq<Channel>>>, r: Room) {
    exists i :: 0 <= i < |parts| && r in parts[i]
  }

  /** The whole is made of the parts. */
  ghost predicate Parts(parts: seq<map<Room, seq<Channel>>>, whole: map<Room, seq<Channel>>) {
    && (forall i | 0 <= i < |parts| :: forall r | r in parts[i] :: r in whole && whole[r] == parts[i][r])
    && (forall r | r in whole :: InPart(parts, r))
  }

  lemma {:induction false} Whole(parts: seq<map<Room, seq<Channel>>>) returns (whole: map<Room, seq<Channel>>)
    requires PartsApart(parts)
    ensures Parts(parts, whole)
  {
    whole := map[];
    if parts != [] {
      var n := |parts| - 1;
      var front := Whole(parts[..n]);
      whole := front + parts[n];
      forall r | r in whole
        ensures InPart(parts, r)
      {
        if r in parts[n] {
        } else {
          var i :| 0 <= i < n && r in parts[..n][i];
          assert r in parts[i];
        }
      }
      forall i | 0 <= i < |parts|
        ensures forall r | r in parts[i] :: r in whole && whole[r] == parts[i][r]
      {
        assert i < n ==> parts[..n][i] == parts[i];
      }
    }
  }

  lemma PartOf(parts: seq<map<Room, seq<Channel>>>, whole: map<Room, seq<Channel>>, r: Room) returns (i: nat)
    requires Parts(parts, whole) && r in whole
    ensures i < |parts| && r in parts[i] && whole[r] == parts[i][r]
  {
    assert InPart(parts, r);
    i :| 0 <= i < |parts| && r in parts[i];
  }

  lemma InWhole(parts: seq<map<Room, seq<Channel>>>, whole: map<Room, seq<Channel>>, r: Room)
    requires Parts(parts, whole)
    ensures r in whole <==> InPart(parts, r)
  {
    if InPart(parts, r) {
      var i :| 0 <= i < |parts| && r in parts[i];
    }
  }

  lemma SeparateInParts(parts: seq<map<Room, seq<Channel>>>, whole: map<Room, seq<Channel>>)
    requires Parts(parts, whole) && PartsApart(parts)
    requires forall i | 0 <= i < |parts| :: Separate(parts[i])
    ensures Separate(whole)
  {
    hide Parts, InPart;
    forall r, q | r in whole && q in whole && r != q
      ensures forall c | c in whole[r] :: c !in whole[q]
    {
      var i := PartOf(parts, whole, r);
      var j := PartOf(parts, whole, q);
      assert Separate(parts[i]);
    }
  }

  /** Lists along which nothing was written but at ch. */
  ghost predicate Beside(lists: map<Room, seq<Channel>>, ch: Channel)
    reads *
  {
    && Separate(lists)
    && forall r | r in lists :: Distinct(lists[r]) && r.next == Nth(lists[r], 0) && Along(lists[r], ch, null)
  }

  twostate lemma PartStays(lists: map<Room, seq<Channel>>, new ch: Channel)
    requires old(Spelled(lists.Keys, lists))
    requires forall r | r in lists :: unchanged(r) && forall c | c in lists[r] && c != ch :: unchanged(c)
    ensures Beside(lists, ch)
  {
    forall r | r in lists
      ensures Along(lists[r], ch, null)
    {
      assert old(r.Spells(lists[r]));
      StillAlong(lists[r], ch, null);
    }
  }

  lemma RelinkedInParts(parts: seq<map<Room, seq<Channel>>>, whole: map<Room, seq<Channel>>,
                          i: nat, target: Room, ch: Channel)
    requires Parts(parts, whole) && Separate(whole) && i < |parts| && Relinked(parts[i], target, ch)
    requires forall j | 0 <= j < |parts| && j != i :: Beside(parts[j], ch) && target !in parts[j]
    ensures Relinked(whole, target, ch)
  {
    hide Parts, Distinct, Room.Heads, Nth, Separate;
    InWhole(parts, whole, target);
    if target in whole {
      var j := PartOf(parts, whole, target);
    }
    assert FirstOf(whole, target) == FirstOf(parts[i], target);
    forall r | r in whole
      ensures Distinct(whole[r]) && Along(whole[r], ch, FirstOf(whole, target))
              && (r != target ==> r.next == Nth(whole[r], 0))
    {
      var j := PartOf(parts, whole, r);
      assert j != i ==> Beside(parts[j], ch);
    }
    hide Along;
  }

  /** The same of rooms in several parts, one of which has the target. */
  lemma SpelledExactlyInParts(parts: seq<map<Room, seq<Channel>>>, i: nat, target: Room, ch: Channel, rooms: set<Room>)
    requires PartsApart(parts) && i < |parts| && Relinked(parts[i], target, ch)
    requires forall j | 0 <= j < |parts| && j != i :: Beside(parts[j], ch) && target !in parts[j]
    requires forall r :: r in rooms <==> r == target || InPart(parts, r)
    ensures (exists lists: map<Room, seq<Channel>> :: Spelled(rooms, lists))
       <==> forall j | 0 <= j < |parts| :: Unlisted(parts[j], ch)
  {
    var whole := Whole(parts);
    forall j | 0 <= j < |parts|
      ensures Separate(parts[j])
    {
      assert j != i ==> Beside(parts[j], ch);
    }
    hide Separate, Beside, Relinked, Unlisted, Spelled, InPart;
    SeparateInParts(parts, whole);
    RelinkedInParts(parts, whole, i, target, ch);
    SpelledExactly(whole, target, ch);
    UnlistedInParts(parts, whole, ch);
    forall r: Room
      ensures r in rooms <==> r in whole || r == target
    {
      InWhole(parts, whole, r);
    }
    assert rooms == whole.Keys + {target};
  }

  lemma UnlistedInParts(parts: seq<map<Room, seq<Channel>>>, whole: map<Room, seq<Channel>>, ch: Channel)
    requires Parts(parts, whole)
    ensures Unlisted(whole, ch) <==> forall i | 0 <= i < |parts| :: Unlisted(parts[i], ch)
  {
    if forall i | 0 <= i < |parts| :: Unlisted(parts[i], ch) {
      forall r | r in whole
        ensures ch !in whole[r]
      {
        var i := PartOf(parts, whole, r);
        assert Unlisted(parts[i], ch);
      }
    }
  }
}
