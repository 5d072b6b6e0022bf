/** The connect tier's channels, and its rooms as intrusive doubly linked lists.
    Each lock section of the source is one method call here. */
module Connect {
  import opened Rooms

  datatype Msg = Msg(ver: int, operation: int, seqId: string, body: seq<bv8>)

  /** What non-blocking sends, one after another, leave in a mailbox of the given size. */
  function Delivered(queue: seq<Msg>, size: nat, msgs: seq<Msg>): seq<Msg>
    decreases |msgs|
  {
    if msgs == [] then queue
    else Delivered(if |queue| < size then queue + [msgs[0]] else queue, size, msgs[1..])
  }

  /** The first ones that find a place stay, in order, and the others are dropped. */
  lemma {:induction false} DeliveredExactly(queue: seq<Msg>, size: nat, msgs: seq<Msg>)
    ensures Delivered(queue, size, msgs) == queue + msgs[..if |queue| + |msgs| <= size then |msgs|
                                                            else if |queue| <= size then size - |queue| else 0]
    decreases |msgs|
  {
    if msgs != [] {
      var queue' := if |queue| < size then queue + [msgs[0]] else queue;
      DeliveredExactly(queue', size, msgs[1..]);
      assert msgs == [msgs[0]] + msgs[1..];
    }
  }

  lemma {:induction false} DeliveredInTurn(queue: seq<Msg>, size: nat, msgs: seq<Msg>, more: seq<Msg>)
    ensures Delivered(Delivered(queue, size, msgs), size, more) == Delivered(queue, size, msgs + more)
    decreases |msgs|
  {
    if msgs == [] {
      assert msgs + more == more;
    } else {
      DeliveredInTurn(if |queue| < size then queue + [msgs[0]] else queue, size, msgs[1..], more);
      assert (msgs + more)[1..] == msgs[1..] + more;
    }
  }

  ghost function Nth(s: seq<Channel>, i: int): Channel? {
    if 0 <= i < |s| then s[i] else null
  }

  ghost predicate Forwards(s: seq<Channel>)
    reads s`next
  {
    forall i {:trigger s[i].next} | 0 <= i < |s| :: s[i].next == Nth(s, i + 1)
  }

  ghost predicate Backwards(s: seq<Channel>)
    reads s`prev
  {
    forall i {:trigger s[i].prev} | 0 <= i < |s| :: s[i].prev == Nth(s, i - 1)
  }

  ghost function Only(c: Channel?): set<Channel> {
    if c == null then {} else {c}
  }

  ghost function Cut(s: seq<Channel>, k: nat): seq<Channel> {
    if k < |s| then s[..k] + s[k + 1..] else s
  }

  /** Where ch stands in s, or the length of s. */
  lemma Position(s: seq<Channel>, ch: Channel) returns (k: nat)
    requires Distinct(s)
    ensures if ch in s then k < |s| && s[k] == ch && Cut(s, k) == Without(s, ch) else k == |s|
    ensures Cut([], k) == []
  {
    if ch in s {
      k :| k < |s| && s[k] == ch;
      WithoutAt(s, k);
    } else {
      k := |s|;
    }
  }

  class Channel {
    var room: Room?
    var next: Channel?
    var prev: Channel?
    var broadcast: seq<Msg>
    const size: nat
    var userId: int

    constructor (size: nat)
      ensures room == null && next == null && prev == null && broadcast == [] && this.size == size && userId == 0
    {
      this.size := size;
      room, next, prev := null, null, null;
      broadcast := [];
      userId := 0;
    }

    method Push(msg: Msg)
      modifies this`broadcast
      ensures broadcast == if old(|broadcast|) < size then old(broadcast) + [msg] else old(broadcast)
      ensures broadcast == Delivered(old(broadcast), size, [msg])
    {
      assert [msg][1..] == [];
      if |broadcast| < size {
        broadcast := broadcast + [msg];
      }
    }
  }

  class Room {
    const id: int
    var onlineCount: int
    var drop: bool
    var next: Channel?
    ghost var members: seq<Channel>

    ghost function View(): RoomView<Channel>
      reads this
    {
      RoomView(id, onlineCount, drop, members)
    }

    ghost predicate Valid()
      reads this, members`next, members`prev
    {
      Consistent(View()) && Linked()
    }

    /** The header, Next and Prev pointers spell out exactly members, forwards and backwards. */
    ghost predicate Linked()
      reads this, members`next, members`prev
    {
      next == Nth(members, 0) && Forwards(members) && Backwards(members)
    }

    constructor (roomId: int)
      ensures Valid() && View() == RoomView(roomId, 0, false, []) && next == null
    {
      id := roomId;
      onlineCount, drop, next := 0, false, null;
      members := [];
    }

    /** The channel that the header points to, if there is one. */
    ghost function Header(): set<Channel>
      reads this
    {
      Only(next)
    }

    lemma HeaderIsMember()
      requires Linked()
      ensures forall c | c in Header() :: c in members
    {
    }

    lemma NeighboursAreMembers(ch: Channel)
      requires Linked() && ch in members
      ensures forall c | c in Only(ch.next) + Only(ch.prev) :: c in members
    {
      var k :| 0 <= k < |members| && members[k] == ch;
      assert members[k].next == Nth(members, k + 1) && members[k].prev == Nth(members, k - 1);
    }

    /** The header and the Next and Prev pointers spell out exactly s. */
    ghost predicate Spells(s: seq<Channel>)
      reads this`next, s`next, s`prev
    {
      Distinct(s) && next == Nth(s, 0) && Forwards(s) && Backwards(s)
    }

    /** ch stands in front of what was the first channel. */
    ghost predicate Heads(ch: Channel, first: Channel?)
      reads this`next, ch`next, ch`prev, (if first == null then {} else {first})`prev
    {
      next == ch && ch.next == first && ch.prev == null && (first != null && first != ch ==> first.prev == ch)
    }

    /** err is nil exactly when ok. Nothing in the source makes sure that ch is in no list. */
    method Put(ch: Channel) returns (ok: bool)
      requires Valid()
      modifies this, Header()`prev, ch`prev, ch`next
      ensures ok == !old(drop)
      ensures ok ==> Heads(ch, old(next)) && View() == AfterPut(old(View()), ch)
      ensures !ok ==> unchanged(this) && unchanged(ch)
      ensures Valid() <==> old(drop) || ch !in old(members)
    {
      hide Without;
      PutKeepsConsistent(View(), ch);
      ok := !drop;
      if !drop {
        LinkFirst(ch);
        onlineCount := onlineCount + 1;
        members := [ch] + members;
      }
    }

    /** The pointer part of Put. */
    method LinkFirst(ch: Channel)
      requires Linked() && Distinct(members)
      modifies this`next, Header()`prev, ch`prev, ch`next
      ensures Heads(ch, old(next))
      ensures ch !in members ==> next == ch && Forwards([ch] + members) && Backwards([ch] + members)
    {
      if next != null {
        next.prev := ch;
      }
      ch.next := next;
      ch.prev := null;
      next := ch;
    }

    /** Pushes to every member once and to nobody else. */
    method Push(msg: Msg)
      requires Valid()
      modifies members`broadcast
      ensures Valid()
      ensures forall c | c in members ::
                c.broadcast == if old(|c.broadcast|) < c.size then old(c.broadcast) + [msg] else old(c.broadcast)
    {
      var ch := next;
      ghost var i := 0;
      while ch != null
        invariant Valid() && 0 <= i <= |members|
        invariant ch == Nth(members, i)
        invariant forall j | 0 <= j < i ::
                    members[j].broadcast == if old(|members[j].broadcast|) < members[j].size
                                            then old(members[j].broadcast) + [msg] else old(members[j].broadcast)
        invariant forall j | i <= j < |members| :: members[j].broadcast == old(members[j].broadcast)
        decreases |members| - i
      {
        ch.Push(msg);
        ch := ch.next;
        i := i + 1;
      }
    }

    /** ch is a member, or was never linked. */
    ghost predicate CanLose(ch: Channel)
      reads this, ch
    {
      ch in members || (ch.next == null && ch.prev == null)
    }

    /** What unlinking leaves: the neighbours of ch, whichever list they are in, are linked to each other, and the
        header goes to the successor of a channel without predecessor. */
    ghost predicate Unlinked(ch: Channel, before: Channel?, after: Channel?, first: Channel?)
      reads this, ch, Only(before), Only(after)
    {
      && (after != null ==> after.prev == before) && (before != null ==> before.next == after)
      && next == (if before == null then after else first)
      && ch.prev == before && ch.next == after
    }

    /** Of any channel. A member, or a channel that was never linked, leaves the room as it should be exactly if it is
        a member, or the room was dropped or had at most one member: unlinking a channel without neighbours clears the
        header. */
    method DeleteChannel(ch: Channel) returns (dropped: bool)
      modifies this, Only(ch.next)`prev, Only(ch.prev)`next
      ensures Unlinked(ch, old(ch.prev), old(ch.next), old(next))
      ensures onlineCount == old(onlineCount) - 1 && dropped == drop == (onlineCount <= 0)
      ensures old(Valid() && CanLose(ch)) ==> View() == AfterDelete(old(View()), ch) && Linked()
      ensures old(Valid() && CanLose(ch)) ==> (Valid() <==> old(ch in members || drop || |members| <= 1))
    {
      hide Distinct, Forwards, Backwards, Without, Nth;
      ghost var known, view := Valid() && CanLose(ch), View();
      if known {
        DeleteExactly(view, ch);
      }
      Unlink(ch);
      onlineCount := onlineCount - 1;
      drop := false;
      if onlineCount <= 0 {
        drop := true;
      }
      dropped := drop;
    }

    /** The pointer surgery of DeleteChannel. */
    method Unlink(ch: Channel)
      modifies this`next, this`members, Only(ch.next)`prev, Only(ch.prev)`next
      ensures Unlinked(ch, old(ch.prev), old(ch.next), old(next))
      ensures old(Linked() && Distinct(members) && CanLose(ch)) ==>
                Linked() && members == (if ch in old(members) then Without(old(members), ch) else [])
    {
      hide Distinct, Without, Forwards, Backwards, Nth, Cut;
      ghost var known := Linked() && Distinct(members) && CanLose(ch);
      ghost var t, k := [], 0;
      if known {
        t := if ch in members then Without(members, ch) else [];
        k := Position(members, ch);
        assert ch in members ==> t == Cut(members, k);
      }
      UnlinkPrev(ch, members, k);
      assert known && ch in members ==> Backwards(t);
      UnlinkNext(ch, members, k);
      EmptyLinked();
      if known {
        members := t;
      }
    }

    /** ch.Next.Prev = ch.Prev */
    method UnlinkPrev(ch: Channel, ghost s: seq<Channel>, ghost k: nat)
      modifies Only(ch.next)`prev
      ensures old(ch.next) != null ==> old(ch.next).prev == old(ch.prev)
      ensures ch.prev == old(ch.prev)
      ensures old(Distinct(s) && Forwards(s) && Backwards(s) && if k < |s| then s[k] == ch else ch.next == null) ==>
                Backwards(Cut(s, k)) && (k < |s| ==> ch.prev == Nth(s, k - 1))
    {
      ghost var known := Distinct(s) && Forwards(s) && Backwards(s) && if k < |s| then s[k] == ch else ch.next == null;
      assert known && k < |s| ==> s[k].next == Nth(s, k + 1) && s[k].prev == Nth(s, k - 1);
      if ch.next != null {
        ch.next.prev := ch.prev;
      }
      if known && k < |s| {
        ghost var t := Cut(s, k);
        forall i | 0 <= i < |t|
          ensures t[i].prev == Nth(t, i - 1)
        {
          var j := if i < k then i else i + 1;
          assert t[i] == s[j] && old(s[j].prev) == Nth(s, j - 1);
          assert j != k + 1 ==> s[j] != ch.next;
        }
      }
    }

    /** ch.Prev.Next = ch.Next, or the header becomes ch.Next. */
    method UnlinkNext(ch: Channel, ghost s: seq<Channel>, ghost k: nat)
      modifies this`next, Only(ch.prev)`next
      ensures ch.prev != null ==> ch.prev.next == old(ch.next)
      ensures ch.next == old(ch.next) && next == if ch.prev == null then old(ch.next) else old(next)
      ensures old(Distinct(s) && Forwards(s) && next == Nth(s, 0)
                  && if k < |s| then s[k] == ch && ch.prev == Nth(s, k - 1) else ch.next == null && ch.prev == null) ==>
                Forwards(Cut(s, k)) && next == if k < |s| then Nth(Cut(s, k), 0) else null
    {
      assert Forwards(s) && k < |s| ==> s[k].next == Nth(s, k + 1);
      if ch.prev != null {
        ch.prev.next := ch.next;
      } else {
        next := ch.next;
      }
    }
  }

  lemma EmptyLinked()
    ensures Forwards([]) && Backwards([]) && Nth([], 0) == null
  {
  }
}
