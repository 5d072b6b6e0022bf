/** Bucket.Put and Bucket.DeleteChannel at the granularity of their lock sections.
    Put indexes a channel under the bucket lock and joins the room under the room lock;
    DeleteChannel holds the bucket lock throughout and takes the room lock to unlink. */
module TwoPhasePut {
  import opened Options
  import opened Rooms

  type Chan = nat
  type Ref = nat

  /** Where a channel is: between the two lock sections of its Put; in the list of its room; unlinked from it again;
      refused by it, because the room had been dropped; or put without a room. */
  datatype PutPhase = Indexed | InRoom | Left | Refused | Alone

  /** closed: the deletion at the end of the connection has begun. taken: a deletion has taken the channel
      out of the index, not necessarily the one of its own connection. */
  datatype Channel = Channel(userId: int, room: Option<Ref>, put: PutPhase, taken: bool, closed: bool)

  /** The deletion, if any, that holds the bucket lock. */
  datatype Deletion = Idle | Unlinking(victim: Chan, room: Ref) | Sweeping(room: Ref)

  datatype State = State(
    rooms: map<int, Ref>, objects: map<Ref, RoomView<Chan>>, chs: map<int, Chan>,
    channels: map<Chan, Channel>, del: Deletion)

  datatype Step =
    | PutIndex(c: Chan, userId: int, roomId: int, newRef: Ref)
    | PutJoin(c: Chan)
    | DelIndex(c: Chan)
    | DelUnlink
    | DelSweep

  const EMPTY: State := State(map[], map[], map[], map[], Idle)

  /** Channels are new, and a connection deletes its channel once, after its Put has returned. */
  predicate Enabled(s: State, step: Step) {
    match step
    case PutIndex(c, _, _, newRef) => s.del.Idle? && c !in s.channels && newRef !in s.objects
    case PutJoin(c) =>
      c in s.channels && s.channels[c].put.Indexed? && s.channels[c].room.Some? && s.channels[c].room.value in s.objects
    case DelIndex(c) => s.del.Idle? && c in s.channels && !s.channels[c].put.Indexed? && !s.channels[c].closed
    case DelUnlink => s.del.Unlinking? && s.del.victim in s.channels && s.del.room in s.objects
    case DelSweep => s.del.Sweeping? && s.del.room in s.objects
  }

  /** A user who is put is not mapped already. */
  predicate Fresh(s: State, step: Step) {
    step.PutIndex? ==> step.userId !in s.chs
  }

  /** The room is created if it is not mapped. */
  function WithRoom(s: State, roomId: int, newRef: Ref): (t: State)
    ensures roomId in t.rooms
  {
    if roomId in s.rooms then s
    else s.(rooms := s.rooms[roomId := newRef], objects := s.objects[newRef := RoomView(roomId, 0, false, [])])
  }

  /** Channel and user are mapped. */
  function WithUser(s: State, c: Chan, ch: Channel): State {
    s.(chs := s.chs[ch.userId := c], channels := s.channels[c := ch])
  }

  /** The first section of DeleteChannel: whichever channel the user is mapped to is taken out of the index. */
  function Taken(s: State, c: Chan): State
    requires c in s.channels
  {
    var u := s.channels[c].userId;
    var t := s.(channels := s.channels[c := s.channels[c].(closed := true)]);
    if u !in t.chs || t.chs[u] !in t.channels then t
    else
      var victim := t.chs[u];
      var v := t.channels[victim];
      var t1 := t.(chs := t.chs - {u}, channels := t.channels[victim := v.(taken := true)]);
      if v.room.None? then t1 else t1.(del := Unlinking(victim, v.room.value))
  }

  function Next(s: State, step: Step): State
    requires Enabled(s, step)
  {
    match step
    case PutIndex(c, u, roomId, newRef) =>
      if roomId == NO_ROOM then WithUser(s, c, Channel(u, None, Alone, false, false))
      else
        var t := WithRoom(s, roomId, newRef);
        WithUser(t, c, Channel(u, Some(t.rooms[roomId]), Indexed, false, false))
    case PutJoin(c) =>
      var ref := s.channels[c].room.value;
      var room := s.objects[ref];
      s.(objects := s.objects[ref := AfterPut(room, c)],
         channels := s.channels[c := s.channels[c].(put := if room.drop then Refused else InRoom)])
    case DelIndex(c) => Taken(s, c)
    case DelUnlink =>
      var v, before := s.del.victim, s.objects[s.del.room];
      var room := AfterDelete(before, v);
      s.(objects := s.objects[s.del.room := room],
         channels := if v in before.members then s.channels[v := s.channels[v].(put := Left)] else s.channels,
         del := if room.drop then Sweeping(s.del.room) else Idle)
    case DelSweep =>
      var room := s.objects[s.del.room];
      s.(rooms := if room.drop then s.rooms - {room.id} else s.rooms, del := Idle)
  }

  // ---------- what every interleaving keeps ----------

  /** A list holds channels that are in this room, each once. */
  ghost predicate ListOk(s: State, ref: Ref)
    requires ref in s.objects
  {
    && Distinct(s.objects[ref].members)
    && forall c | c in s.objects[ref].members ::
         c in s.channels && s.channels[c].room == Some(ref) && s.channels[c].put.InRoom?
  }

  ghost predicate RefOk(s: State, c: Chan)
    requires c in s.channels
  {
    var ch := s.channels[c];
    && (ch.room.Some? ==> ch.room.value in s.objects)
    && (ch.put.Alone? <==> ch.room.None?)
  }

  ghost predicate UserOk(s: State, u: int)
    requires u in s.chs
  {
    var c := s.chs[u];
    c in s.channels && s.channels[c].userId == u && !s.channels[c].taken
  }

  ghost predicate IdOk(s: State, id: int)
    requires id in s.rooms
  {
    s.rooms[id] in s.objects && s.objects[s.rooms[id]].id == id
  }

  ghost predicate DelOk(s: State) {
    match s.del
    case Idle => true
    case Unlinking(v, ref) =>
      v in s.channels && s.channels[v].room == Some(ref) && s.channels[v].taken && ref in s.objects
    case Sweeping(ref) => ref in s.objects
  }

  ghost predicate Frame(s: State) {
    && (forall ref | ref in s.objects :: ListOk(s, ref))
    && (forall c | c in s.channels :: RefOk(s, c))
    && (forall u | u in s.chs :: UserOk(s, u))
    && (forall id | id in s.rooms :: IdOk(s, id))
    && DelOk(s)
  }

  lemma FrameKept(s: State, step: Step)
    requires Frame(s) && Enabled(s, step)
    ensures Frame(Next(s, step))
  {
    hide Frame, Next;
    match step
    case PutIndex(_, _, _, _) => IndexKeepsFrame(s, step);
    case PutJoin(c) => JoinKeepsFrame(s, c);
    case DelIndex(c) => TakeKeepsFrame(s, c);
    case DelUnlink => UnlinkKeepsFrame(s);
    case DelSweep => SweepKeepsFrame(s);
  }

  lemma IndexKeepsFrame(s: State, step: Step)
    requires Frame(s) && step.PutIndex? && Enabled(s, step)
    ensures Frame(Next(s, step))
  {
    var t := if step.roomId == NO_ROOM then s else WithRoom(s, step.roomId, step.newRef);
    var room := if step.roomId == NO_ROOM then None else Some(t.rooms[step.roomId]);
    RoomKeepsFrame(s, step.roomId, step.newRef);
    assert room.Some? && step.roomId in s.rooms ==> room.value == s.rooms[step.roomId];
    hide Frame;
    UserKeepsFrame(t, step.c, Channel(step.userId, room, if room.None? then Alone else Indexed, false, false));
  }

  lemma RoomKeepsFrame(s: State, roomId: int, newRef: Ref)
    requires Frame(s) && newRef !in s.objects
    ensures Frame(WithRoom(s, roomId, newRef))
  {
    hide Distinct;
    var s' := WithRoom(s, roomId, newRef);
    EmptyRoomConsistent<Chan>(roomId);
    forall ref | ref in s'.objects
      ensures ListOk(s', ref)
    {
      assert ref in s.objects ==> ListOk(s, ref);
    }
    forall x | x in s'.channels
      ensures RefOk(s', x)
    {
      assert x in s.channels ==> RefOk(s, x);
    }
    forall u | u in s'.chs
      ensures UserOk(s', u)
    {
      assert u in s.chs ==> UserOk(s, u);
    }
    forall id | id in s'.rooms
      ensures IdOk(s', id)
    {
      assert id in s.rooms ==> IdOk(s, id);
    }
  }

  lemma UserKeepsFrame(s: State, c: Chan, ch: Channel)
    requires Frame(s) && s.del.Idle? && c !in s.channels && !ch.taken
    requires if ch.room.None? then ch.put.Alone? else ch.room.value in s.objects && ch.put.Indexed?
    ensures Frame(WithUser(s, c, ch))
  {
    hide Distinct;
    var s' := WithUser(s, c, ch);
    forall ref | ref in s'.objects
      ensures ListOk(s', ref)
    {
      assert ref in s.objects ==> ListOk(s, ref);
    }
    forall x | x in s'.channels
      ensures RefOk(s', x)
    {
      assert x in s.channels ==> RefOk(s, x);
    }
    forall u | u in s'.chs
      ensures UserOk(s', u)
    {
      assert u in s.chs ==> UserOk(s, u);
    }
    forall id | id in s'.rooms
      ensures IdOk(s', id)
    {
      assert id in s.rooms ==> IdOk(s, id);
    }
  }

  lemma JoinKeepsFrame(s: State, c: Chan)
    requires Frame(s) && Enabled(s, PutJoin(c))
    ensures Frame(Next(s, PutJoin(c)))
  {
    hide Distinct;
    var s' := Next(s, PutJoin(c));
    var mine := s.channels[c].room.value;
    assert ListOk(s, mine) && RefOk(s, c);
    PrependDistinct(s.objects[mine].members, c);
    forall ref | ref in s'.objects
      ensures ListOk(s', ref)
    {
      assert ref in s.objects ==> ListOk(s, ref);
    }
    forall x | x in s'.channels
      ensures RefOk(s', x)
    {
      assert x in s.channels ==> RefOk(s, x);
    }
    forall u | u in s'.chs
      ensures UserOk(s', u)
    {
      assert u in s.chs ==> UserOk(s, u);
    }
    forall id | id in s'.rooms
      ensures IdOk(s', id)
    {
      assert id in s.rooms ==> IdOk(s, id);
    }
  }

  lemma TakeKeepsFrame(s: State, c: Chan)
    requires Frame(s) && Enabled(s, DelIndex(c))
    ensures Frame(Next(s, DelIndex(c)))
  {
    hide Distinct;
    var s' := Next(s, DelIndex(c));
    var u := s.channels[c].userId;
    assert u in s.chs ==> UserOk(s, u) && RefOk(s, s.chs[u]);
    TakenKeepsChannels(s, c);
    assert s'.objects == s.objects && s'.rooms == s.rooms;
    hide Taken;
    forall ref | ref in s'.objects
      ensures ListOk(s', ref)
    {
      assert ListOk(s, ref);
    }
    forall x | x in s'.channels
      ensures RefOk(s', x)
    {
      assert RefOk(s, x);
    }
    forall v | v in s'.chs
      ensures UserOk(s', v)
    {
      assert UserOk(s, v);
    }
    forall id | id in s'.rooms
      ensures IdOk(s', id)
    {
      assert IdOk(s, id);
    }
  }

  /** A deletion marks channels and changes nothing else in them. */
  lemma TakenKeepsChannels(s: State, c: Chan)
    requires c in s.channels && s.del.Idle?
    ensures var s', u := Taken(s, c), s.channels[c].userId;
            && (forall x :: x in s'.channels <==> x in s.channels)
            && (forall x | x in s.channels ::
                  && s'.channels[x].userId == s.channels[x].userId
                  && s'.channels[x].room == s.channels[x].room && s'.channels[x].put == s.channels[x].put
                  && (s'.channels[x].taken ==> s.channels[x].taken || (u in s.chs && s.chs[u] == x)))
            && (forall v :: v in s'.chs <==> v in s.chs && (v != u || s.chs[u] !in s.channels))
            && (forall v | v in s'.chs :: s'.chs[v] == s.chs[v])
            && (s'.del.Idle? || (u in s.chs && s.chs[u] in s.channels && s'.channels[s.chs[u]].taken
                                 && s.channels[s.chs[u]].room.Some?
                                 && s'.del == Unlinking(s.chs[u], s.channels[s.chs[u]].room.value)))
  {
    var u := s.channels[c].userId;
    var closed := s.channels[c := s.channels[c].(closed := true)];
    if u in s.chs && s.chs[u] in s.channels {
      var victim := s.chs[u];
      assert Taken(s, c).channels == closed[victim := closed[victim].(taken := true)];
      assert Taken(s, c).chs == s.chs - {u};
    } else {
      assert Taken(s, c).channels == closed && Taken(s, c).chs == s.chs && Taken(s, c).del.Idle?;
    }
    hide Taken;
  }

  lemma UnlinkKeepsFrame(s: State)
    requires Frame(s) && Enabled(s, DelUnlink)
    ensures Frame(Next(s, DelUnlink))
  {
    hide Distinct, Without;
    var s' := Next(s, DelUnlink);
    assert ListOk(s, s.del.room);
    WithoutDistinct(s.objects[s.del.room].members, s.del.victim);
    EmptyRoomConsistent<Chan>(0);
    forall ref | ref in s'.objects
      ensures ListOk(s', ref)
    {
      assert ref in s.objects ==> ListOk(s, ref);
    }
    forall x | x in s'.channels
      ensures RefOk(s', x)
    {
      assert x in s.channels ==> RefOk(s, x);
    }
    forall u | u in s'.chs
      ensures UserOk(s', u)
    {
      assert u in s.chs ==> UserOk(s, u);
    }
    forall id | id in s'.rooms
      ensures IdOk(s', id)
    {
      assert id in s.rooms ==> IdOk(s, id);
    }
  }

  lemma SweepKeepsFrame(s: State)
    requires Frame(s) && Enabled(s, DelSweep)
    ensures Frame(Next(s, DelSweep))
  {
    hide Distinct;
    var s' := Next(s, DelSweep);
    forall ref | ref in s'.objects
      ensures ListOk(s', ref)
    {
      assert ref in s.objects ==> ListOk(s, ref);
    }
    forall x | x in s'.channels
      ensures RefOk(s', x)
    {
      assert x in s.channels ==> RefOk(s, x);
    }
    forall u | u in s'.chs
      ensures UserOk(s', u)
    {
      assert u in s.chs ==> UserOk(s, u);
    }
    forall id | id in s'.rooms
      ensures IdOk(s', id)
    {
      assert id in s.rooms ==> IdOk(s, id);
    }
  }

  // ---------- when are rooms and lists lost? ----------

  /** A channel that is in a room is in the list of the room. */
  ghost predicate ListedOk(s: State, c: Chan)
    requires c in s.channels
  {
    var ch := s.channels[c];
    ch.put.InRoom? ==> ch.room.Some? && ch.room.value in s.objects && c in s.objects[ch.room.value].members
  }

  /** A live room counts its list, a dropped one has an empty list and no positive count, and every
      channel that is in a room is in its list. */
  ghost predicate Sound(s: State) {
    && (forall ref | ref in s.objects :: Consistent(s.objects[ref]))
    && (forall c | c in s.channels :: ListedOk(s, c))
  }

  /** A deletion unlinks a channel that its room has not linked, while others are in the list: the header is
      overwritten with the null successor of the channel, and the list is gone. */
  predicate LosesList(s: State, step: Step) {
    && step.DelUnlink? && s.del.Unlinking? && s.del.room in s.objects
    && var members := s.objects[s.del.room].members; s.del.victim !in members && members != []
  }

  /** In every state of every interleaving of any calls: soundness is lost exactly in such a step. */
  lemma SoundLostExactly(s: State, step: Step)
    requires Frame(s) && Sound(s) && Enabled(s, step)
    ensures Sound(Next(s, step)) <==> !LosesList(s, step)
  {
    hide Next, Frame, Sound;
    if step.DelUnlink? {
      UnlinkSoundExactly(s);
    } else if step.PutJoin? {
      JoinKeepsSound(s, step.c);
    } else if step.PutIndex? {
      IndexKeepsSound(s, step);
    } else {
      DeletionKeepsSound(s, step);
    }
  }

  lemma UnlinkSoundExactly(s: State)
    requires Frame(s) && Sound(s) && Enabled(s, DelUnlink)
    ensures Sound(Next(s, DelUnlink)) <==> !LosesList(s, DelUnlink)
  {
    hide Without, Distinct;
    var s', ref, v := Next(s, DelUnlink), s.del.room, s.del.victim;
    var room := s.objects[ref];
    assert ListOk(s, ref) && Consistent(room);
    if v !in room.members && room.members != [] {
      var d := room.members[0];
      assert d in room.members && d in s.channels && d != v;
      assert !ListedOk(s', d);
    } else {
      DeleteExactly(room, v);
      forall c | c in s'.channels
        ensures ListedOk(s', c)
      {
        assert ListedOk(s, c);
      }
      hide Consistent, AfterDelete;
    }
  }

  lemma JoinKeepsSound(s: State, c: Chan)
    requires Frame(s) && Sound(s) && Enabled(s, PutJoin(c))
    ensures Sound(Next(s, PutJoin(c)))
  {
    var s', ref := Next(s, PutJoin(c)), s.channels[c].room.value;
    assert ListOk(s, ref);
    PutKeepsConsistent(s.objects[ref], c);
    hide Consistent, Frame, ListOk;
    forall x | x in s'.channels
      ensures ListedOk(s', x)
    {
      assert ListedOk(s, x);
    }
  }

  lemma IndexKeepsSound(s: State, step: Step)
    requires Sound(s) && step.PutIndex? && Enabled(s, step)
    ensures Sound(Next(s, step))
  {
    EmptyRoomConsistent<Chan>(step.roomId);
    hide Consistent;
    var s' := Next(s, step);
    forall x | x in s'.channels
      ensures ListedOk(s', x)
    {
      assert x in s.channels ==> ListedOk(s, x);
    }
  }

  lemma DeletionKeepsSound(s: State, step: Step)
    requires Sound(s) && Enabled(s, step) && (step.DelIndex? || step.DelSweep?)
    ensures Sound(Next(s, step))
  {
    hide Consistent;
    var s' := Next(s, step);
    forall x | x in s'.channels
      ensures ListedOk(s', x)
    {
      assert ListedOk(s, x);
    }
  }

  /** Once a room is dropped it stays dropped, and its list stays empty. */
  ghost predicate DropsKept(s: State, s': State) {
    forall ref | ref in s.objects :: ref in s'.objects && s'.objects[ref].id == s.objects[ref].id
                                   && (s.objects[ref].drop ==> s'.objects[ref].drop && s'.objects[ref].members == [])
  }

  /** drop never reverts, so no channel ever joins a dropped room. */
  lemma StepKeepsDrops(s: State, step: Step)
    requires Sound(s) && Enabled(s, step)
    ensures DropsKept(s, Next(s, step))
  {
    hide Distinct, Without;
    forall ref | ref in s.objects
      ensures Consistent(s.objects[ref])
    {
    }
  }

  ghost predicate IsRun(states: seq<State>, steps: seq<Step>) {
    && |states| == |steps| + 1
    && forall i | 0 <= i < |steps| :: Enabled(states[i], steps[i]) && states[i + 1] == Next(states[i], steps[i])
  }

  lemma EmptySound()
    ensures Frame(EMPTY) && Sound(EMPTY)
  {
  }

  lemma {:induction false} RunKeepsFrame(states: seq<State>, steps: seq<Step>, k: nat)
    requires IsRun(states, steps) && Frame(states[0]) && k <= |steps|
    ensures Frame(states[k])
  {
    hide Frame, Next;
    if k > 0 {
      RunKeepsFrame(states, steps, k - 1);
      FrameKept(states[k - 1], steps[k - 1]);
    }
  }

  /** No call waits for another one forever: a deletion under way can always make its next step; when there is none,
      a connection can be put, and can be deleted once its Put has returned; and a Put joins at any time. */
  lemma CallsGoOn(s: State, c: Chan, u: int, roomId: int, newRef: Ref)
    requires Frame(s)
    ensures s.del.Unlinking? ==> Enabled(s, DelUnlink)
    ensures s.del.Sweeping? ==> Enabled(s, DelSweep)
    ensures s.del.Idle? && c !in s.channels && newRef !in s.objects ==> Enabled(s, PutIndex(c, u, roomId, newRef))
    ensures c in s.channels && s.channels[c].put.Indexed? ==> Enabled(s, PutJoin(c))
    ensures s.del.Idle? && c in s.channels && !s.channels[c].put.Indexed? && !s.channels[c].closed ==>
              Enabled(s, DelIndex(c))
  {
    assert c in s.channels ==> RefOk(s, c);
  }

  /** In every interleaving of any calls, with users who are put again while they are mapped among them, rooms and
      lists are sound as long as no deletion has lost a list. */
  lemma {:induction false} RunKeepsSound(states: seq<State>, steps: seq<Step>, k: nat)
    requires IsRun(states, steps) && states[0] == EMPTY && k <= |steps|
    requires forall i | 0 <= i < k :: !LosesList(states[i], steps[i])
    ensures Frame(states[k]) && Sound(states[k])
  {
    EmptySound();
    hide Frame, Sound, Next, LosesList;
    if k > 0 {
      RunKeepsSound(states, steps, k - 1);
      FrameKept(states[k - 1], steps[k - 1]);
      SoundLostExactly(states[k - 1], steps[k - 1]);
    }
  }

  /** And a room that is dropped at some moment is dropped and empty ever after. */
  lemma {:induction false} RunKeepsDrops(states: seq<State>, steps: seq<Step>, i: nat, k: nat)
    requires IsRun(states, steps) && states[0] == EMPTY && i <= k <= |steps|
    requires forall j | 0 <= j < k :: !LosesList(states[j], steps[j])
    ensures DropsKept(states[i], states[k])
  {
    RunKeepsSound(states, steps, i);
    if i == k {
      hide Next, Frame, LosesList;
      assert forall ref | ref in states[i].objects :: Consistent(states[i].objects[ref]);
    } else {
      hide Next, Frame, Sound, LosesList;
      RunKeepsDrops(states, steps, i, k - 1);
      RunKeepsSound(states, steps, k - 1);
      StepKeepsDrops(states[k - 1], steps[k - 1]);
    }
  }

  // ---------- whose channel does a deletion take? ----------

  /** A channel is taken at the end of its own connection exactly if its user is mapped to it. */
  lemma TakesOwnExactly(s: State, c: Chan)
    requires Frame(s) && Enabled(s, DelIndex(c))
    ensures c in Next(s, DelIndex(c)).channels
    ensures var u := s.channels[c].userId;
            && Next(s, DelIndex(c)).chs == s.chs - {u}
            && (Next(s, DelIndex(c)).channels[c].taken <==> s.channels[c].taken || (u in s.chs && s.chs[u] == c))
  {
    var u := s.channels[c].userId;
    if u in s.chs {
      assert UserOk(s, u);
    }
  }

  /** c is in the list of a room, nobody is mapped to it, and it is not the one that is being unlinked. */
  ghost predicate Abandoned(s: State, ref: Ref, c: Chan) {
    && ref in s.objects && c in s.objects[ref].members
    && (forall u | u in s.chs :: s.chs[u] != c)
    && (s.del.Unlinking? ==> s.del.victim != c)
  }

  lemma StaysAbandoned(s: State, step: Step, ref: Ref, c: Chan)
    requires Frame(s) && Enabled(s, step) && Abandoned(s, ref, c) && !LosesList(s, step)
    ensures Abandoned(Next(s, step), ref, c)
  {
    hide Consistent, Distinct;
    assert ListOk(s, ref);
    if step.DelIndex? {
      TakenKeepsChannels(s, step.c);
      assert Taken(s, step.c).objects == s.objects;
      hide Taken;
    }
  }

  lemma BecomesAbandoned(s: State, ref: Ref, c: Chan)
    requires Frame(s) && Enabled(s, DelIndex(c)) && ref in s.objects && c in s.objects[ref].members
    requires var u := s.channels[c].userId; u !in s.chs || s.chs[u] != c
    ensures Abandoned(Next(s, DelIndex(c)), ref, c)
  {
    assert forall u | u in s.chs :: UserOk(s, u);
    TakenKeepsChannels(s, c);
    assert Taken(s, c).objects == s.objects;
    hide Taken;
  }

  /** Otherwise, as after a reconnect, a channel that is in a room stays in its list, and is counted, at every later
      moment: no call unlinks it any more, unless one loses the whole list. */
  lemma {:induction false} EndedStaysListed(states: seq<State>, steps: seq<Step>, i: nat, k: nat, ref: Ref, c: Chan)
    requires IsRun(states, steps) && Frame(states[0]) && i < k <= |steps| && steps[i] == DelIndex(c)
    requires ref in states[i].objects && c in states[i].objects[ref].members
    requires var u := states[i].channels[c].userId; u !in states[i].chs || states[i].chs[u] != c
    requires forall t | i <= t < k :: !LosesList(states[t], steps[t])
    ensures Abandoned(states[k], ref, c)
    decreases k
  {
    hide Frame, Next, LosesList, Abandoned;
    RunKeepsFrame(states, steps, k - 1);
    if k == i + 1 {
      BecomesAbandoned(states[i], ref, c);
    } else {
      EndedStaysListed(states, steps, i, k - 1, ref, c);
      StaysAbandoned(states[k - 1], steps[k - 1], ref, c);
    }
  }

  // ---------- users who are not put while they are mapped ----------

  /** A channel that no deletion has taken is the one that its user is mapped to; a deletion takes the channel of its
      own connection, and only after its Put; a refused channel points to a dropped room. */
  ghost predicate OwnOk(s: State, c: Chan)
    requires c in s.channels
  {
    var ch := s.channels[c];
    && ch.taken == ch.closed
    && (!ch.taken ==> ch.userId in s.chs && s.chs[ch.userId] == c)
    && (ch.put.Indexed? ==> !ch.taken)
    && (ch.taken && ch.put.InRoom? ==> s.del.Unlinking? && s.del.victim == c)
    && (ch.put.Refused? && ch.room.Some? && ch.room.value in s.objects ==> s.objects[ch.room.value].drop)
    && (ch.put.Left? ==> ch.taken)
  }

  /** A mapped room is live, unless it has just been emptied by the deletion that is about to unmap it. */
  ghost predicate MappingOk(s: State, id: int)
    requires id in s.rooms
  {
    s.rooms[id] in s.objects && (s.objects[s.rooms[id]].drop ==> s.del == Sweeping(s.rooms[id]))
  }

  ghost predicate VictimOk(s: State) {
    match s.del
    case Idle => true
    case Unlinking(v, ref) => ref in s.objects && (v in s.objects[ref].members || s.objects[ref].drop)
    case Sweeping(ref) => ref in s.objects && s.objects[ref].drop
  }

  ghost predicate Orderly(s: State) {
    && (forall c | c in s.channels :: OwnOk(s, c))
    && (forall id | id in s.rooms :: MappingOk(s, id))
    && VictimOk(s)
  }

  ghost predicate Inv(s: State) { Frame(s) && Sound(s) && Orderly(s) }

  lemma StepKeepsInv(s: State, step: Step)
    requires Inv(s) && Enabled(s, step) && Fresh(s, step)
    ensures Inv(Next(s, step)) && !LosesList(s, step)
  {
    FrameKept(s, step);
    SoundLostExactly(s, step);
    OrderlyKept(s, step);
    NoListLost(s, step);
    hide Frame, Sound, Orderly, Next, LosesList;
  }

  lemma NoListLost(s: State, step: Step)
    requires Inv(s)
    ensures !LosesList(s, step)
  {
    if s.del.Unlinking? {
      assert VictimOk(s) && Consistent(s.objects[s.del.room]);
    }
  }

  lemma OrderlyKept(s: State, step: Step)
    requires Inv(s) && Enabled(s, step) && Fresh(s, step)
    ensures Orderly(Next(s, step))
  {
    hide Inv, Orderly, Next;
    match step
    case PutIndex(_, _, _, _) => IndexKeepsOrder(s, step);
    case PutJoin(c) => JoinKeepsOrder(s, c);
    case DelIndex(c) => TakeKeepsOrder(s, c);
    case DelUnlink => UnlinkKeepsOrder(s);
    case DelSweep => SweepKeepsOrder(s);
  }

  lemma IndexKeepsOrder(s: State, step: Step)
    requires Inv(s) && step.PutIndex? && Enabled(s, step) && Fresh(s, step)
    ensures Orderly(Next(s, step))
  {
    var t := if step.roomId == NO_ROOM then s else WithRoom(s, step.roomId, step.newRef);
    var room := if step.roomId == NO_ROOM then None else Some(t.rooms[step.roomId]);
    RoomKeepsOrder(s, step.roomId, step.newRef);
    hide Inv, Orderly;
    UserKeepsOrder(t, step.c, Channel(step.userId, room, if room.None? then Alone else Indexed, false, false));
  }

  lemma RoomKeepsOrder(s: State, roomId: int, newRef: Ref)
    requires Inv(s) && s.del.Idle? && newRef !in s.objects
    ensures Orderly(WithRoom(s, roomId, newRef))
  {
    var s' := WithRoom(s, roomId, newRef);
    assert forall x | x in s.channels :: RefOk(s, x);
    hide Frame, Sound;
    forall x | x in s'.channels
      ensures OwnOk(s', x)
    {
      assert x in s.channels ==> OwnOk(s, x);
    }
    forall id | id in s'.rooms
      ensures MappingOk(s', id)
    {
      assert id in s.rooms ==> MappingOk(s, id);
    }
  }

  lemma UserKeepsOrder(s: State, c: Chan, ch: Channel)
    requires Orderly(s) && s.del.Idle? && c !in s.channels && ch.userId !in s.chs
    requires !ch.taken && !ch.closed && (ch.put.Alone? || ch.put.Indexed?)
    ensures Orderly(WithUser(s, c, ch))
  {
    var s' := WithUser(s, c, ch);
    forall x | x in s'.channels
      ensures OwnOk(s', x)
    {
      assert x in s.channels ==> OwnOk(s, x);
    }
    forall id | id in s'.rooms
      ensures MappingOk(s', id)
    {
      assert id in s.rooms ==> MappingOk(s, id);
    }
  }

  lemma JoinKeepsOrder(s: State, c: Chan)
    requires Inv(s) && Enabled(s, PutJoin(c))
    ensures Orderly(Next(s, PutJoin(c)))
  {
    var s' := Next(s, PutJoin(c));
    assert Consistent(s.objects[s.channels[c].room.value]);
    hide Frame, Sound, Consistent;
    forall x | x in s'.channels
      ensures OwnOk(s', x)
    {
      assert x in s.channels ==> OwnOk(s, x);
    }
    forall id | id in s'.rooms
      ensures MappingOk(s', id)
    {
      assert id in s.rooms ==> MappingOk(s, id);
    }
  }

  /** Without users put twice, a deletion finds the channel of its own connection. */
  lemma TakesItself(s: State, c: Chan)
    requires Inv(s) && Enabled(s, DelIndex(c))
    ensures s.channels[c].userId in s.chs && s.chs[s.channels[c].userId] == c && !s.channels[c].taken
    ensures s.channels[c].room.Some? ==>
              && s.channels[c].room.value in s.objects
              && (c in s.objects[s.channels[c].room.value].members || s.objects[s.channels[c].room.value].drop)
  {
    assert OwnOk(s, c) && RefOk(s, c) && ListedOk(s, c);
  }

  lemma TakeKeepsOrder(s: State, c: Chan)
    requires Inv(s) && Enabled(s, DelIndex(c))
    ensures Orderly(Next(s, DelIndex(c)))
  {
    TakesItself(s, c);
    var s' := Next(s, DelIndex(c));
    assert forall x | x in s.channels :: RefOk(s, x);
    hide Frame, Sound;
    forall x | x in s'.channels
      ensures OwnOk(s', x)
    {
      assert x in s.channels ==> OwnOk(s, x);
    }
    forall id | id in s'.rooms
      ensures MappingOk(s', id)
    {
      assert id in s.rooms ==> MappingOk(s, id);
    }
  }

  lemma UnlinkKeepsOrder(s: State)
    requires Inv(s) && Enabled(s, DelUnlink)
    ensures Orderly(Next(s, DelUnlink))
  {
    hide Without, Distinct;
    var s' := Next(s, DelUnlink);
    assert Consistent(s.objects[s.del.room]) && VictimOk(s) && OwnOk(s, s.del.victim) && ListOk(s, s.del.room);
    assert ListedOk(s, s.del.victim);
    DeleteKeepsConsistent(s.objects[s.del.room], s.del.victim);
    hide Frame, Sound, Consistent, AfterDelete;
    forall x | x in s'.channels
      ensures OwnOk(s', x)
    {
      assert x in s.channels ==> OwnOk(s, x);
    }
    forall id | id in s'.rooms
      ensures MappingOk(s', id)
    {
      assert id in s.rooms ==> MappingOk(s, id);
    }
  }

  lemma SweepKeepsOrder(s: State)
    requires Inv(s) && Enabled(s, DelSweep)
    ensures Orderly(Next(s, DelSweep))
  {
    assert forall id | id in s.rooms :: IdOk(s, id);
    hide Frame, Sound;
    var s' := Next(s, DelSweep);
    forall x | x in s'.channels
      ensures OwnOk(s', x)
    {
      assert x in s.channels ==> OwnOk(s, x);
    }
    forall id | id in s'.rooms
      ensures MappingOk(s', id)
    {
      assert id in s.rooms ==> MappingOk(s, id);
    }
  }

  lemma EmptyInv()
    ensures Inv(EMPTY) && Coherent(EMPTY)
  {
  }

  /** In every interleaving in which users are not put while they are mapped. */
  lemma {:induction false} RunKeepsInv(states: seq<State>, steps: seq<Step>, k: nat)
    requires IsRun(states, steps) && states[0] == EMPTY && k <= |steps|
    requires forall i | 0 <= i < k :: Fresh(states[i], steps[i])
    ensures Inv(states[k]) && forall i | 0 <= i < k :: !LosesList(states[i], steps[i])
  {
    EmptyInv();
    hide Inv, Next, Fresh, LosesList;
    if k > 0 {
      RunKeepsInv(states, steps, k - 1);
      StepKeepsInv(states[k - 1], steps[k - 1]);
    }
  }

  // ---------- can every live room be found? ----------

  /** Every live room is the one that its id is mapped to. */
  ghost predicate Coherent(s: State) {
    forall ref | ref in s.objects && !s.objects[ref].drop ::
      s.objects[ref].id in s.rooms && s.rooms[s.objects[ref].id] == ref
  }

  /** The last section of a deletion unmaps an id that leads to a live room. */
  predicate SweepsLive(s: State, step: Step) {
    && step.DelSweep? && s.del.Sweeping? && s.del.room in s.objects && s.objects[s.del.room].drop
    && var id := s.objects[s.del.room].id;
       id in s.rooms && s.rooms[id] in s.objects && !s.objects[s.rooms[id]].drop
  }

  /** In every state of every interleaving of any calls: coherence is lost exactly in such a step. */
  lemma CoherenceLostExactly(s: State, step: Step)
    requires Frame(s) && Sound(s) && Enabled(s, step) && Coherent(s)
    ensures Coherent(Next(s, step)) <==> !SweepsLive(s, step)
  {
    hide Without, Distinct, ListOk, RefOk, ListedOk, UserOk;
    assert forall id | id in s.rooms :: IdOk(s, id);
    assert forall ref | ref in s.objects :: Consistent(s.objects[ref]);
    if SweepsLive(s, step) {
      var live := s.rooms[s.objects[s.del.room].id];
      assert !Next(s, step).objects[live].drop && s.objects[live].id !in Next(s, step).rooms;
    }
  }

  /** In every interleaving of any calls, as long as no deletion has lost a list or unmapped a live room, every
      live room can be found by its id. */
  lemma {:induction false} RunKeepsLiveMapped(states: seq<State>, steps: seq<Step>, k: nat)
    requires IsRun(states, steps) && states[0] == EMPTY && k <= |steps|
    requires forall i | 0 <= i < k :: !LosesList(states[i], steps[i]) && !SweepsLive(states[i], steps[i])
    ensures Coherent(states[k])
  {
    hide Frame, Sound, Next, Coherent, LosesList, SweepsLive;
    EmptyInv();
    if k > 0 {
      RunKeepsLiveMapped(states, steps, k - 1);
      RunKeepsSound(states, steps, k - 1);
      CoherenceLostExactly(states[k - 1], steps[k - 1]);
    }
  }

  /** The room can be found by its id. */
  predicate Leads(s: State, ref: Ref) {
    ref in s.objects && s.objects[ref].id in s.rooms && s.rooms[s.objects[ref].id] == ref
  }

  /** The last section of a deletion unmaps the id. */
  predicate Unmaps(s: State, step: Step, id: int) {
    && step.DelSweep? && s.del.Sweeping? && s.del.room in s.objects
    && s.objects[s.del.room].drop && s.objects[s.del.room].id == id
  }

  /** Of one room, in every state of every interleaving: it stops being found exactly when its id is unmapped, ... */
  lemma LeadLostExactly(s: State, step: Step, ref: Ref)
    requires Frame(s) && Enabled(s, step) && Leads(s, ref)
    ensures Leads(Next(s, step), ref) <==> !Unmaps(s, step, s.objects[ref].id)
  {
    hide Without, Consistent;
  }

  /** ... and is never found again. */
  lemma LeadNeverReturns(s: State, step: Step, ref: Ref)
    requires Frame(s) && Enabled(s, step) && ref in s.objects && !Leads(s, ref)
    ensures ref in Next(s, step).objects && !Leads(Next(s, step), ref)
  {
    hide Without, Consistent;
  }

  /** Unmapping the id of a live room that is found is what loses coherence. */
  lemma LiveLeadLostBySweep(s: State, step: Step, ref: Ref)
    requires Frame(s) && Enabled(s, step) && Leads(s, ref) && !s.objects[ref].drop && !Leads(Next(s, step), ref)
    ensures SweepsLive(s, step)
  {
    LeadLostExactly(s, step, ref);
    hide Next, Frame;
  }

  /** A channel is put into a list once. */
  lemma JoinsOnce(s: State, step: Step, ref: Ref, c: Chan)
    requires Frame(s) && Enabled(s, step) && c in s.channels
    ensures c in Next(s, step).channels && (Next(s, step).channels[c].put.Indexed? ==> s.channels[c].put.Indexed?)
    ensures ref in Next(s, step).objects && c in Next(s, step).objects[ref].members && !s.channels[c].put.Indexed? ==>
              ref in s.objects && c in s.objects[ref].members
  {
    hide Consistent, Distinct;
    if step.DelIndex? {
      TakenKeepsChannels(s, step.c);
      hide Taken;
    }
  }

  /** The deletion under way is in a room whose id has meanwhile been mapped to another room. */
  predicate Doomed(s: State) {
    !s.del.Idle? && s.del.room in s.objects
    && var id := s.objects[s.del.room].id; id in s.rooms && s.rooms[id] != s.del.room
  }

  /** Only the last section of a doomed deletion breaks coherence: it unmaps the other, live room. */
  lemma CoherenceLostExactlyBySweep(s: State, step: Step)
    requires Inv(s) && Enabled(s, step) && Coherent(s)
    ensures Coherent(Next(s, step)) <==> !(step.DelSweep? && Doomed(s))
  {
    hide Consistent, Without, ListOk, RefOk, ListedOk, OwnOk, UserOk;
    assert forall ref | ref in s.objects :: Consistent(s.objects[ref]);
    assert forall id | id in s.rooms :: IdOk(s, id) && MappingOk(s, id);
    if step.DelSweep? && Doomed(s) {
      var id := s.objects[s.del.room].id;
      var live := s.rooms[id];
      assert id !in Next(s, step).rooms && !Next(s, step).objects[live].drop;
    }
    if step.DelUnlink? {
      DeleteKeepsConsistent(s.objects[s.del.room], s.del.victim);
    }
  }

  /** Whether a deletion is doomed is settled when it starts: exactly when the channel had been refused
      by its room and the room's id is mapped again. */
  lemma DoomIsSettledAtStart(s: State, c: Chan)
    requires Inv(s) && Enabled(s, DelIndex(c)) && Coherent(s)
    ensures Doomed(Next(s, DelIndex(c)))
       <==> s.channels[c].put.Refused? && s.objects[s.channels[c].room.value].id in s.rooms
  {
    TakesItself(s, c);
    assert OwnOk(s, c) && RefOk(s, c);
    var room := s.channels[c].room;
    if room.Some? {
      assert Consistent(s.objects[room.value]) && ListedOk(s, c);
      if s.objects[room.value].id in s.rooms {
        assert MappingOk(s, s.objects[room.value].id);
      }
    }
  }

  /** Until its last section a deletion is doomed or not as it was. */
  lemma DoomStays(s: State, step: Step)
    requires Inv(s) && Enabled(s, step) && Coherent(s) && !s.del.Idle? && !step.DelSweep?
    ensures Doomed(Next(s, step)) <==> Doomed(s)
  {
    hide Frame;
    if step.DelUnlink? {
      assert VictimOk(s) && Consistent(s.objects[s.del.room]);
      DeleteKeepsConsistent(s.objects[s.del.room], s.del.victim);
      if Doomed(s) {
        assert MappingOk(s, s.objects[s.del.room].id);
      }
    }
  }

  /** A deletion of a channel that its room refused, while the id of that room is mapped again. */
  predicate Dooming(s: State, step: Step) {
    && step.DelIndex? && step.c in s.channels && s.channels[step.c].put.Refused?
    && s.channels[step.c].room.Some? && s.channels[step.c].room.value in s.objects
    && s.objects[s.channels[step.c].room.value].id in s.rooms
  }

  /** In every interleaving without such a deletion, in which users are not put while they are mapped, every live
      room can be found by its id at every moment. */
  lemma {:induction false} RunKeepsCoherence(states: seq<State>, steps: seq<Step>, k: nat)
    requires IsRun(states, steps) && states[0] == EMPTY && k <= |steps|
    requires forall i | 0 <= i < k :: Fresh(states[i], steps[i]) && !Dooming(states[i], steps[i])
    ensures Coherent(states[k]) && !Doomed(states[k])
  {
    hide Inv, Next, Coherent, Fresh;
    EmptyInv();
    if k > 0 {
      var s, step := states[k - 1], steps[k - 1];
      RunKeepsCoherence(states, steps, k - 1);
      RunKeepsInv(states, steps, k - 1);
      CoherenceLostExactlyBySweep(s, step);
      NotDoomedStep(s, step);
    }
  }

  lemma NotDoomedStep(s: State, step: Step)
    requires Inv(s) && Enabled(s, step) && Coherent(s) && !Doomed(s) && !Dooming(s, step)
    ensures !Doomed(Next(s, step))
  {
    hide Inv, Coherent;
    if step.DelIndex? {
      if s.channels[step.c].put.Refused? {
        RefusedHasRoom(s, step.c);
      }
      DoomIsSettledAtStart(s, step.c);
      hide Next;
    } else if !s.del.Idle? && !step.DelSweep? {
      DoomStays(s, step);
      hide Next;
    }
  }

  lemma RefusedHasRoom(s: State, c: Chan)
    requires Inv(s) && c in s.channels && s.channels[c].put.Refused?
    ensures s.channels[c].room.Some? && s.channels[c].room.value in s.objects
  {
    assert RefOk(s, c);
  }

  // ---------- two runs ----------

  function Live(u: int, ref: Ref, put: PutPhase): Channel { Channel(u, Some(ref), put, false, false) }

  function Ended(u: int, ref: Ref, put: PutPhase): Channel { Channel(u, Some(ref), put, true, true) }

  /** Three users and one room: the second user's Put is overtaken by the deletion of the first user,
      and the deletion of the second user then unmaps the room that the third is in. */
  const OVERTAKEN: seq<Step> := [
    PutIndex(1, 1, 7, 1), PutJoin(1), PutIndex(2, 2, 7, 2), DelIndex(1), DelUnlink, DelSweep, PutJoin(2),
    PutIndex(3, 3, 7, 2), PutJoin(3), DelIndex(2), DelUnlink, DelSweep]

  const OVERTAKEN_STATES: seq<State> := [
    EMPTY,
    State(map[7 := 1], map[1 := RoomView(7, 0, false, [])], map[1 := 1], map[1 := Live(1, 1, Indexed)], Idle),
    State(map[7 := 1], map[1 := RoomView(7, 1, false, [1])], map[1 := 1], map[1 := Live(1, 1, InRoom)], Idle),
    State(map[7 := 1], map[1 := RoomView(7, 1, false, [1])], map[1 := 1, 2 := 2],
          map[1 := Live(1, 1, InRoom), 2 := Live(2, 1, Indexed)], Idle),
    State(map[7 := 1], map[1 := RoomView(7, 1, false, [1])], map[2 := 2],
          map[1 := Ended(1, 1, InRoom), 2 := Live(2, 1, Indexed)], Unlinking(1, 1)),
    State(map[7 := 1], map[1 := RoomView(7, 0, true, [])], map[2 := 2],
          map[1 := Ended(1, 1, Left), 2 := Live(2, 1, Indexed)], Sweeping(1)),
    State(map[], map[1 := RoomView(7, 0, true, [])], map[2 := 2],
          map[1 := Ended(1, 1, Left), 2 := Live(2, 1, Indexed)], Idle),
    State(map[], map[1 := RoomView(7, 0, true, [])], map[2 := 2],
          map[1 := Ended(1, 1, Left), 2 := Live(2, 1, Refused)], Idle),
    State(map[7 := 2], map[1 := RoomView(7, 0, true, []), 2 := RoomView(7, 0, false, [])], map[2 := 2, 3 := 3],
          map[1 := Ended(1, 1, Left), 2 := Live(2, 1, Refused), 3 := Live(3, 2, Indexed)], Idle),
    State(map[7 := 2], map[1 := RoomView(7, 0, true, []), 2 := RoomView(7, 1, false, [3])], map[2 := 2, 3 := 3],
          map[1 := Ended(1, 1, Left), 2 := Live(2, 1, Refused), 3 := Live(3, 2, InRoom)], Idle),
    State(map[7 := 2], map[1 := RoomView(7, 0, true, []), 2 := RoomView(7, 1, false, [3])], map[3 := 3],
          map[1 := Ended(1, 1, Left), 2 := Ended(2, 1, Refused), 3 := Live(3, 2, InRoom)], Unlinking(2, 1)),
    State(map[7 := 2], map[1 := RoomView(7, -1, true, []), 2 := RoomView(7, 1, false, [3])], map[3 := 3],
          map[1 := Ended(1, 1, Left), 2 := Ended(2, 1, Refused), 3 := Live(3, 2, InRoom)], Sweeping(1)),
    State(map[], map[1 := RoomView(7, -1, true, []), 2 := RoomView(7, 1, false, [3])], map[3 := 3],
          map[1 := Ended(1, 1, Left), 2 := Ended(2, 1, Refused), 3 := Live(3, 2, InRoom)], Idle)]

  lemma LiveRoomUnmapped()
    ensures IsRun(OVERTAKEN_STATES, OVERTAKEN) && OVERTAKEN_STATES[0] == EMPTY
    ensures var s := OVERTAKEN_STATES[12];
            7 !in s.rooms && 2 in s.objects && s.objects[2] == RoomView(7, 1, false, [3]) && !Coherent(s)
  {
    var states, steps := OVERTAKEN_STATES, OVERTAKEN;
    forall i | 0 <= i < 12
      ensures Enabled(states[i], steps[i]) && states[i + 1] == Next(states[i], steps[i])
    {
      if i < 3 {
        OvertakenStart(i);
      } else if i < 6 {
        OvertakenLeave(i);
      } else if i < 9 {
        OvertakenJoin(i);
      } else {
        OvertakenSweep(i);
      }
    }
    hide Next, Enabled;
    assert 2 in states[12].objects;
  }

  lemma OvertakenStart(i: nat)
    requires 0 <= i < 3
    ensures Enabled(OVERTAKEN_STATES[i], OVERTAKEN[i])
            && OVERTAKEN_STATES[i + 1] == Next(OVERTAKEN_STATES[i], OVERTAKEN[i])
  {
    assert [1] + [] == [1];
    if i == 0 {} else if i == 1 {} else {}
  }

  lemma OvertakenLeave(i: nat)
    requires 3 <= i < 6
    ensures Enabled(OVERTAKEN_STATES[i], OVERTAKEN[i])
            && OVERTAKEN_STATES[i + 1] == Next(OVERTAKEN_STATES[i], OVERTAKEN[i])
  {
    if i == 3 {
      OvertakenTake();
    } else if i == 4 {
      OvertakenUnlink();
    } else {
      hide AfterDelete, Taken;
    }
  }

  lemma OvertakenTake()
    ensures Enabled(OVERTAKEN_STATES[3], DelIndex(1)) && OVERTAKEN_STATES[4] == Next(OVERTAKEN_STATES[3], DelIndex(1))
  {
  }

  lemma OvertakenUnlink()
    ensures Enabled(OVERTAKEN_STATES[4], DelUnlink) && OVERTAKEN_STATES[5] == Next(OVERTAKEN_STATES[4], DelUnlink)
  {
    assert AfterDelete<Chan>(RoomView(7, 1, false, [1]), 1) == RoomView(7, 0, true, []);
    hide AfterDelete;
  }

  lemma OvertakenJoin(i: nat)
    requires 6 <= i < 9
    ensures Enabled(OVERTAKEN_STATES[i], OVERTAKEN[i])
            && OVERTAKEN_STATES[i + 1] == Next(OVERTAKEN_STATES[i], OVERTAKEN[i])
  {
    assert [3] + [] == [3];
    if i == 6 {} else if i == 7 {} else {}
  }

  lemma OvertakenSweep(i: nat)
    requires 9 <= i < 12
    ensures Enabled(OVERTAKEN_STATES[i], OVERTAKEN[i])
            && OVERTAKEN_STATES[i + 1] == Next(OVERTAKEN_STATES[i], OVERTAKEN[i])
  {
    if i == 9 {} else if i == 10 {} else {}
  }

  /** User 1 connects again while user 3 is in the room too, and the first connection of user 1 ends before
      the second has joined: the deletion takes the second channel. */
  const RECONNECTED: seq<Step> := [
    PutIndex(1, 1, 7, 1), PutJoin(1), PutIndex(3, 3, 7, 2), PutJoin(3), PutIndex(2, 1, 7, 2), DelIndex(1), DelUnlink]

  const RECONNECTED_STATES: seq<State> := [
    EMPTY,
    State(map[7 := 1], map[1 := RoomView(7, 0, false, [])], map[1 := 1], map[1 := Live(1, 1, Indexed)], Idle),
    State(map[7 := 1], map[1 := RoomView(7, 1, false, [1])], map[1 := 1], map[1 := Live(1, 1, InRoom)], Idle),
    State(map[7 := 1], map[1 := RoomView(7, 1, false, [1])], map[1 := 1, 3 := 3],
          map[1 := Live(1, 1, InRoom), 3 := Live(3, 1, Indexed)], Idle),
    State(map[7 := 1], map[1 := RoomView(7, 2, false, [3, 1])], map[1 := 1, 3 := 3],
          map[1 := Live(1, 1, InRoom), 3 := Live(3, 1, InRoom)], Idle),
    State(map[7 := 1], map[1 := RoomView(7, 2, false, [3, 1])], map[1 := 2, 3 := 3],
          map[1 := Live(1, 1, InRoom), 3 := Live(3, 1, InRoom), 2 := Live(1, 1, Indexed)], Idle),
    State(map[7 := 1], map[1 := RoomView(7, 2, false, [3, 1])], map[3 := 3],
          map[1 := Channel(1, Some(1), InRoom, false, true), 3 := Live(3, 1, InRoom),
              2 := Channel(1, Some(1), Indexed, true, false)], Unlinking(2, 1)),
    State(map[7 := 1], map[1 := RoomView(7, 1, false, [])], map[3 := 3],
          map[1 := Channel(1, Some(1), InRoom, false, true), 3 := Live(3, 1, InRoom),
              2 := Channel(1, Some(1), Indexed, true, false)], Idle)]

  lemma ReconnectLosesList()
    ensures IsRun(RECONNECTED_STATES, RECONNECTED) && RECONNECTED_STATES[0] == EMPTY
    ensures LosesList(RECONNECTED_STATES[6], RECONNECTED[6])
    ensures var s := RECONNECTED_STATES[7];
            s.rooms[7] == 1 && s.objects[1] == RoomView(7, 1, false, []) && s.channels[3].put == InRoom && !Sound(s)
  {
    var states, steps := RECONNECTED_STATES, RECONNECTED;
    forall i | 0 <= i < 7
      ensures Enabled(states[i], steps[i]) && states[i + 1] == Next(states[i], steps[i])
    {
      if i < 4 {
        ReconnectedJoin(i);
      } else {
        ReconnectedLeave(i);
      }
    }
    hide Next, Enabled;
    assert 1 in states[7].objects && !Consistent(states[7].objects[1]);
  }

  lemma ReconnectedJoin(i: nat)
    requires 0 <= i < 4
    ensures Enabled(RECONNECTED_STATES[i], RECONNECTED[i])
    ensures RECONNECTED_STATES[i + 1] == Next(RECONNECTED_STATES[i], RECONNECTED[i])
  {
    assert [1] + [] == [1] && [3] + [1] == [3, 1];
    if i == 0 {} else if i == 1 {} else if i == 2 {} else {}
  }

  lemma ReconnectedLeave(i: nat)
    requires 4 <= i < 7
    ensures Enabled(RECONNECTED_STATES[i], RECONNECTED[i])
    ensures RECONNECTED_STATES[i + 1] == Next(RECONNECTED_STATES[i], RECONNECTED[i])
  {
    if i == 4 {} else if i == 5 {} else {}
  }
}
