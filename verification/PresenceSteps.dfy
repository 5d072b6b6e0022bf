/** Connect and DisConnect interleaved Redis command by Redis command, with any number of calls in flight.
    A call counts as in flight from its first command on a room key to its last one. */
module PresenceSteps {
  import opened Collections
  import opened Redis
  import opened Presence

  /** What a call has still to do: Connect after its HGET found nothing, and after its HSET;
      DisConnect after its GET found a positive counter, and before its HDEL. */
  datatype Pc = ToHSet(name: string) | ToIncr | ToDecr | ToHDel(counted: bool)

  datatype InFlight = InFlight(room: int, u: int, pc: Pc)

  datatype State = State(st: Store, calls: map<nat, InFlight>)

  datatype Step =
    | BeginConnect(id: nat, room: int, u: int, name: string)
    | BeginDisConnect(id: nat, room: int, u: int)
    | Proceed(id: nat)

  /** Nothing is asked of the calls: any users may overlap, and anybody may disconnect. */
  predicate Enabled(s: State, step: Step) {
    match step
    case BeginConnect(id, _, u, _) => id !in s.calls && u != 0
    case BeginDisConnect(id, _, _) => id !in s.calls
    case Proceed(id) => id in s.calls
  }

  /** The store after the next command of a call. */
  function Commanded(st: Store, call: InFlight): Store {
    match call.pc
    case ToHSet(name) => HSet(st, call.room, call.u, name)
    case ToIncr => Add(st, call.room, 1)
    case ToDecr => Add(st, call.room, -1)
    case ToHDel(_) => HDel(st, call.room, call.u)
  }

  /** The calls in flight after the next command of a call. */
  function Continued(calls: map<nat, InFlight>, id: nat): map<nat, InFlight>
    requires id in calls
  {
    var call := calls[id];
    match call.pc
    case ToHSet(_) => calls[id := call.(pc := ToIncr)]
    case ToDecr => if call.u != 0 then calls[id := call.(pc := ToHDel(true))] else calls - {id}
    case _ => calls - {id}
  }

  /** DisConnect reads the counter of a positive room, and has a field to delete for a user that is not zero. */
  function BeginLeave(s: State, id: nat, room: int, u: int): map<nat, InFlight> {
    if room > 0 && Count(s.st, room) > 0 then s.calls[id := InFlight(room, u, ToDecr)]
    else if u != 0 then s.calls[id := InFlight(room, u, ToHDel(false))]
    else s.calls
  }

  function Next(s: State, step: Step): State
    requires Enabled(s, step)
  {
    match step
    case BeginConnect(id, room, u, name) =>
      if HGet(s.st, room, u) == "" then s.(calls := s.calls[id := InFlight(room, u, ToHSet(name))]) else s
    case BeginDisConnect(id, room, u) => s.(calls := BeginLeave(s, id, room, u))
    case Proceed(id) => State(Commanded(s.st, s.calls[id]), Continued(s.calls, id))
  }

  // ---------- the balance of a room ----------

  /** Between the two writes of a call: entered and not yet counted, or uncounted and not yet gone. */
  predicate Uncertain(pc: Pc) { pc.ToIncr? || pc == ToHDel(true) }

  function Between(calls: map<nat, InFlight>, room: int): set<nat> {
    set id | id in calls && calls[id].room == room && Uncertain(calls[id].pc)
  }

  /** How many members the counter misses, those apart who are between two writes. */
  function Gap(s: State, room: int): int {
    |Hash(s.st, room)| - |Between(s.calls, room)| - Count(s.st, room)
  }

  /** By how much a step changes that. */
  function Drift(s: State, step: Step, room: int): int
    requires Enabled(s, step)
  {
    if !step.Proceed? || s.calls[step.id].room != room then 0
    else
      var call := s.calls[step.id];
      var member := call.u in Hash(s.st, room);
      match call.pc
      case ToHSet(_) => if member then -1 else 0
      case ToIncr => 0
      case ToDecr => if call.u == 0 then 1 else 0
      case ToHDel(counted) => if counted && !member then 1 else if !counted && member then -1 else 0
  }

  /** An HSET on an existing field, an HDEL on a missing one after a DECR, an HDEL on an existing one
      without a DECR, or a DECR for nobody. */
  predicate Unbalances(s: State, step: Step, room: int) {
    && step.Proceed? && step.id in s.calls && s.calls[step.id].room == room
    && var call := s.calls[step.id];
       var member := call.u in Hash(s.st, room);
       match call.pc
       case ToHSet(_) => member
       case ToIncr => false
       case ToDecr => call.u == 0
       case ToHDel(counted) => counted != member
  }

  lemma BetweenPut(calls: map<nat, InFlight>, id: nat, call: InFlight, room: int)
    ensures Between(calls[id := call], room)
         == if call.room == room && Uncertain(call.pc) then Between(calls, room) + {id} else Between(calls, room) - {id}
  {
  }

  lemma BetweenDrop(calls: map<nat, InFlight>, id: nat, room: int)
    ensures Between(calls - {id}, room) == Between(calls, room) - {id}
  {
  }

  lemma BetweenContinued(calls: map<nat, InFlight>, id: nat, room: int)
    requires id in calls
    ensures var call, now, next := calls[id], Between(calls, room), Between(Continued(calls, id), room);
            |next| == |now| + if call.room != room then 0
                              else if call.pc.ToHSet? || (call.pc.ToDecr? && call.u != 0) then 1
                              else if Uncertain(call.pc) then -1
                              else 0
  {
    var call, now := calls[id], Between(calls, room);
    BetweenPut(calls, id, call.(pc := ToIncr), room);
    BetweenPut(calls, id, call.(pc := ToHDel(true)), room);
    BetweenDrop(calls, id, room);
    assert id in now <==> call.room == room && Uncertain(call.pc);
    hide Between;
    assert |now - {id}| == |now| - if id in now then 1 else 0;
    assert |now + {id}| == |now| + if id in now then 0 else 1;
  }

  /** The members of its room after the next command of a call. */
  function Members(h: map<int, string>, call: InFlight): map<int, string> {
    match call.pc
    case ToHSet(name) => h[call.u := name]
    case ToHDel(_) => h - {call.u}
    case _ => h
  }

  lemma CommandHash(st: Store, call: InFlight, room: int)
    ensures Hash(Commanded(st, call), room) ==
              if call.room == room then Members(Hash(st, room), call) else Hash(st, room)
  {
    hide HDel, HSet;
    HashAfterHDel(st, call.room, call.u);
    if call.pc.ToHSet? {
      HashAfterHSet(st, call.room, call.u, call.pc.name);
    }
  }

  lemma CommandSize(st: Store, call: InFlight, room: int)
    ensures var h := Hash(st, room);
            |Hash(Commanded(st, call), room)| == |h| + if call.room != room then 0
                                                       else if call.pc.ToHSet? && call.u !in h then 1
                                                       else if call.pc.ToHDel? && call.u in h then -1
                                                       else 0
  {
    CommandHash(st, call, room);
    SizeAfterDel(Hash(st, room), call.u);
    if call.pc.ToHSet? {
      SizeAfterSet(Hash(st, room), call.u, call.pc.name);
    }
    hide Hash, Commanded;
  }

  lemma CommandCount(st: Store, call: InFlight, room: int)
    ensures Count(Commanded(st, call), room) == Count(st, room) + if call.room != room then 0
                                                                  else if call.pc.ToIncr? then 1
                                                                  else if call.pc.ToDecr? then -1
                                                                  else 0
  {
    hide HDel, HSet;
    HashAfterHDel(st, call.room, call.u);
    if call.pc.ToHSet? {
      HashAfterHSet(st, call.room, call.u, call.pc.name);
    }
  }

  lemma BeginKeepsBetween(s: State, step: Step, room: int)
    requires Enabled(s, step) && !step.Proceed?
    ensures Next(s, step).st == s.st && Between(Next(s, step).calls, room) == Between(s.calls, room)
  {
    if step.BeginConnect? {
      BetweenPut(s.calls, step.id, InFlight(step.room, step.u, ToHSet(step.name)), room);
    } else {
      BetweenPut(s.calls, step.id, InFlight(step.room, step.u, ToDecr), room);
      BetweenPut(s.calls, step.id, InFlight(step.room, step.u, ToHDel(false)), room);
    }
    assert step.id !in Between(s.calls, room);
    hide Between, HGet, Count;
  }

  /** Per command, in every state of every interleaving: what happens to the balance of every room. */
  lemma GapDrifts(s: State, step: Step, room: int)
    requires Enabled(s, step)
    ensures Gap(Next(s, step), room) == Gap(s, room) + Drift(s, step, room)
  {
    if step.Proceed? {
      BetweenContinued(s.calls, step.id, room);
      CommandSize(s.st, s.calls[step.id], room);
      CommandCount(s.st, s.calls[step.id], room);
      hide Between, Hash, Count, Commanded, Continued;
    } else {
      BeginKeepsBetween(s, step, room);
      hide Between, Hash, Count, Next;
    }
  }

  /** A step keeps the counter equal to the members less those between two writes exactly if it is none of the four. */
  lemma BalanceKeptExactly(s: State, step: Step, room: int)
    requires Enabled(s, step) && Gap(s, room) == 0
    ensures Gap(Next(s, step), room) == 0 <==> !Unbalances(s, step, room)
  {
    GapDrifts(s, step, room);
    hide Gap, Hash, Next;
  }

  ghost predicate IsRun(states: seq<State>, steps: seq<Step>) {
    && |states| == |steps| + 1
    && forall i | 0 <= i < |steps| :: Enabled(states[i], steps[i]) && states[i + 1] == Next(states[i], steps[i])
  }

  function TotalDrift(states: seq<State>, steps: seq<Step>, k: nat, room: int): int
    requires |states| == |steps| + 1 && k <= |steps|
    requires forall i | 0 <= i < |steps| :: Enabled(states[i], steps[i])
  {
    if k == 0 then 0 else TotalDrift(states, steps, k - 1, room) + Drift(states[k - 1], steps[k - 1], room)
  }

  /** Over every interleaving whatever: the balance is the sum of the drifts. */
  lemma {:induction false} RunDrifts(states: seq<State>, steps: seq<Step>, k: nat, room: int)
    requires IsRun(states, steps) && k <= |steps|
    ensures Gap(states[k], room) == Gap(states[0], room) + TotalDrift(states, steps, k, room)
  {
    if k > 0 {
      RunDrifts(states, steps, k - 1, room);
      GapDrifts(states[k - 1], steps[k - 1], room);
      hide Gap, Drift, Next, Enabled;
    }
  }

  // ---------- one call at a time for a room and user ----------

  /** No call of the user is in flight for the room. */
  predicate Idle(calls: map<nat, InFlight>, room: int, u: int) {
    forall id | id in calls :: !(calls[id].room == room && calls[id].u == u)
  }

  /** At most one call in flight for a room and user, rooms are positive, names are not empty,
      and a disconnect names a member. */
  predicate Disciplined(s: State, step: Step) {
    match step
    case BeginConnect(_, room, u, name) => room > 0 && name != "" && Idle(s.calls, room, u)
    case BeginDisConnect(_, room, u) => room > 0 && u != 0 && u in Hash(s.st, room) && Idle(s.calls, room, u)
    case Proceed(_) => true
  }

  ghost predicate CallOk(h: map<int, string>, call: InFlight) {
    && call.room > 0 && call.u != 0
    && match call.pc
       case ToHSet(name) => call.u !in h && name != ""
       case ToIncr => call.u in h
       case ToDecr => call.u in h
       case ToHDel(counted) => call.u in h && counted
  }

  ghost predicate Apart(calls: map<nat, InFlight>) {
    forall i, j | i in calls && j in calls && i != j :: calls[i].room != calls[j].room || calls[i].u != calls[j].u
  }

  ghost predicate CallsOk(s: State) {
    forall id | id in s.calls :: CallOk(Hash(s.st, s.calls[id].room), s.calls[id])
  }

  ghost predicate Inv(s: State) {
    && CallsOk(s) && Apart(s.calls)
    && forall room | room > 0 :: Named(Hash(s.st, room)) && Gap(s, room) == 0
  }

  /** The users of calls that differ are as many as the calls. */
  lemma {:induction false} UsersOfCalls(calls: map<nat, InFlight>, ids: set<nat>, room: int)
    requires Apart(calls) && forall id | id in ids :: id in calls && calls[id].room == room
    ensures |set id | id in ids :: calls[id].u| == |ids|
    decreases |ids|
  {
    if |ids| > 0 {
      var x := Member(ids);
      var others := ids - {x};
      UsersOfCalls(calls, others, room);
      var users := set id | id in others :: calls[id].u;
      assert (set id | id in ids :: calls[id].u) == users + {calls[x].u};
      assert calls[x].u !in users;
    }
  }

  /** Those who are between two writes: members, each with a call in flight. */
  lemma BetweenUsers(s: State, room: int) returns (users: set<int>)
    requires Inv(s)
    ensures |users| == |Between(s.calls, room)| && users <= Hash(s.st, room).Keys
    ensures forall u | u in users :: !Idle(s.calls, room, u)
  {
    var ids := Between(s.calls, room);
    UsersOfCalls(s.calls, ids, room);
    users := set id | id in ids :: s.calls[id].u;
    forall v | v in users
      ensures v in Hash(s.st, room) && !Idle(s.calls, room, v)
    {
      var id :| id in ids && s.calls[id].u == v;
      assert CallOk(Hash(s.st, s.calls[id].room), s.calls[id]);
    }
    hide Between, Hash, Inv;
  }

  /** There is a member with no call in flight, so the counter is positive. */
  lemma CounterPositive(s: State, room: int, u: int)
    requires Inv(s) && room > 0 && u in Hash(s.st, room) && Idle(s.calls, room, u)
    ensures Count(s.st, room) > 0
  {
    var h := Hash(s.st, room);
    var users := BetweenUsers(s, room);
    assert Gap(s, room) == 0;
    hide Between, Hash, Count, Inv, Idle;
    assert |h.Keys| == |users| + |h.Keys - users|;
    assert u in h.Keys - users;
  }

  lemma StepKeepsCalls(s: State, step: Step)
    requires Inv(s) && Enabled(s, step) && Disciplined(s, step)
    ensures CallsOk(Next(s, step))
  {
    var s' := Next(s, step);
    forall id | id in s'.calls
      ensures CallOk(Hash(s'.st, s'.calls[id].room), s'.calls[id])
    {
      StepKeepsCall(s, step, id);
    }
    hide CallOk, Next;
  }

  lemma StepKeepsCall(s: State, step: Step, id: nat)
    requires Inv(s) && Enabled(s, step) && Disciplined(s, step) && id in Next(s, step).calls
    ensures var s' := Next(s, step); CallOk(Hash(s'.st, s'.calls[id].room), s'.calls[id])
  {
    assert id in s.calls ==> CallOk(Hash(s.st, s.calls[id].room), s.calls[id]);
    match step
    case Proceed(mine) => ProceedKeepsCall(s, mine, id);
    case BeginDisConnect(_, room, u) =>
      CounterPositive(s, room, u);
      hide Inv, Idle, Hash, Count;
    case BeginConnect(_, room, _, _) =>
      assert Named(Hash(s.st, room));
      hide Inv, Idle, Hash;
  }

  lemma ProceedKeepsCall(s: State, mine: nat, id: nat)
    requires Inv(s) && mine in s.calls && id in Continued(s.calls, mine)
    ensures var s' := Next(s, Proceed(mine)); CallOk(Hash(s'.st, s'.calls[id].room), s'.calls[id])
  {
    var call, next := s.calls[mine], Continued(s.calls, mine)[id];
    assert CallOk(Hash(s.st, call.room), call) && CallOk(Hash(s.st, s.calls[id].room), s.calls[id]);
    CommandHash(s.st, call, next.room);
    if id == mine {
      hide Inv, Hash, Commanded;
      OwnCallOk(Hash(s.st, call.room), s.calls, mine);
    } else {
      assert next.room != call.room || next.u != call.u;
      hide Inv, Hash, Commanded;
      OtherCallOk(Hash(s.st, next.room), call, next);
    }
  }

  lemma OwnCallOk(h: map<int, string>, calls: map<nat, InFlight>, id: nat)
    requires id in calls && CallOk(h, calls[id]) && id in Continued(calls, id)
    ensures CallOk(Members(h, calls[id]), Continued(calls, id)[id]) && Continued(calls, id)[id].room == calls[id].room
  {
  }

  lemma OtherCallOk(h: map<int, string>, call: InFlight, other: InFlight)
    requires CallOk(h, other)
    ensures call.u != other.u ==> CallOk(Members(h, call), other)
  {
  }

  lemma StepKeepsApart(s: State, step: Step)
    requires Inv(s) && Enabled(s, step) && Disciplined(s, step)
    ensures Apart(Next(s, step).calls)
  {
    hide CallsOk, Gap, Named, Commanded, Hash, Count;
  }

  lemma StepKeepsBalance(s: State, step: Step, room: int)
    requires Inv(s) && Enabled(s, step) && Disciplined(s, step) && room > 0
    ensures Gap(Next(s, step), room) == 0 && Named(Hash(Next(s, step).st, room))
  {
    assert Gap(s, room) == 0 && Named(Hash(s.st, room));
    if step.Proceed? {
      var call := s.calls[step.id];
      assert CallOk(Hash(s.st, call.room), call);
      CommandHash(s.st, call, room);
    }
    BalanceKeptExactly(s, step, room);
    hide Inv, Gap, Hash, Count, Commanded, Continued;
  }

  lemma StepKeepsInv(s: State, step: Step)
    requires Inv(s) && Enabled(s, step) && Disciplined(s, step)
    ensures Inv(Next(s, step))
  {
    StepKeepsCalls(s, step);
    StepKeepsApart(s, step);
    forall room | room > 0
      ensures Named(Hash(Next(s, step).st, room)) && Gap(Next(s, step), room) == 0
    {
      StepKeepsBalance(s, step, room);
    }
    hide CallsOk, Apart, Next, Gap, Named;
  }

  /** The stale guard of DisConnect always passes: while a member leaves, the counter it reads is positive. */
  lemma GuardPasses(s: State, id: nat, room: int, u: int)
    requires Inv(s) && Enabled(s, BeginDisConnect(id, room, u)) && Disciplined(s, BeginDisConnect(id, room, u))
    ensures Count(s.st, room) > 0
    ensures Next(s, BeginDisConnect(id, room, u)).calls == s.calls[id := InFlight(room, u, ToDecr)]
  {
    CounterPositive(s, room, u);
    hide Inv;
  }

  /** At every moment the counter lies between zero and the number of members, and it is the number of
      members exactly when nobody is between the two writes of a call. */
  lemma CounterIsExactWhenSettled(s: State, room: int)
    requires Inv(s) && room > 0
    ensures Count(s.st, room) == |Hash(s.st, room)| - |Between(s.calls, room)|
    ensures Bounded(s.st, room)
    ensures Exact(s.st, room) <==> Between(s.calls, room) == {}
  {
    var h := Hash(s.st, room);
    var users := BetweenUsers(s, room);
    assert Gap(s, room) == 0;
    hide Between, Hash, Count, Inv, Idle;
    assert |h.Keys| == |users| + |h.Keys - users|;
  }

  /** Nobody is in a room, and no call is in flight. */
  predicate Quiet(s: State) { s.st.rooms == map[] && s.st.counts == map[] && s.calls == map[] }

  lemma {:induction false} RunKeepsInv(states: seq<State>, steps: seq<Step>, k: nat)
    requires IsRun(states, steps) && Quiet(states[0]) && k <= |steps|
    requires forall i | 0 <= i < k :: Disciplined(states[i], steps[i])
    ensures Inv(states[k])
  {
    if k > 0 {
      RunKeepsInv(states, steps, k - 1);
      StepKeepsInv(states[k - 1], steps[k - 1]);
      hide Inv, Next, Disciplined;
    }
  }

  /** Every interleaving that begins with empty rooms, with one call at a time for a room and user: the counter is
      the number of members less those between their two writes, so it is exact whenever no call is in flight
      for the room, and every disconnect finds it positive. */
  lemma RunKeepsCount(states: seq<State>, steps: seq<Step>, k: nat, room: int)
    requires IsRun(states, steps) && Quiet(states[0]) && k <= |steps| && room > 0
    requires forall i | 0 <= i < |steps| :: Disciplined(states[i], steps[i])
    ensures Count(states[k].st, room) == |Hash(states[k].st, room)| - |Between(states[k].calls, room)|
    ensures (forall id | id in states[k].calls :: states[k].calls[id].room != room) ==> Exact(states[k].st, room)
    ensures k < |steps| && steps[k].BeginDisConnect? && steps[k].room == room ==> Count(states[k].st, room) > 0
  {
    RunKeepsInv(states, steps, k);
    CounterIsExactWhenSettled(states[k], room);
    if k < |steps| && steps[k].BeginDisConnect? && steps[k].room == room {
      GuardPasses(states[k], steps[k].id, room, steps[k].u);
    }
    hide Inv, Next, Hash, Count;
  }

  // ---------- uninterrupted calls ----------

  /** The commands of one Connect. */
  function ConnectSteps(st: Store, id: nat, room: int, u: int, name: string): seq<Step> {
    if HGet(st, room, u) == "" then [BeginConnect(id, room, u, name), Proceed(id), Proceed(id)]
    else [BeginConnect(id, room, u, name)]
  }

  /** The commands of one DisConnect: it may decrement, and has a field to delete unless the user is zero. */
  function DisConnectSteps(st: Store, id: nat, room: int, u: int): seq<Step> {
    [BeginDisConnect(id, room, u)] + (if room > 0 && Count(st, room) > 0 then [Proceed(id)] else [])
    + if u != 0 then [Proceed(id)] else []
  }

  /** A call whose commands nothing interrupts does what the whole call does, and leaves the others in flight. */
  lemma UninterruptedConnect(states: seq<State>, id: nat, room: int, u: int, name: string)
    requires |states| > 0 && IsRun(states, ConnectSteps(states[0].st, id, room, u, name))
    ensures states[|states| - 1].st == Entered(states[0].st, room, u, name)
    ensures states[|states| - 1].calls == states[0].calls
  {
    var steps := ConnectSteps(states[0].st, id, room, u, name);
    assert Enabled(states[0], steps[0]) && states[1] == Next(states[0], steps[0]);
    if |steps| > 1 {
      assert Enabled(states[1], steps[1]) && states[2] == Next(states[1], steps[1]);
      assert Enabled(states[2], steps[2]) && states[3] == Next(states[2], steps[2]);
    }
  }

  lemma UninterruptedDisConnect(states: seq<State>, id: nat, room: int, u: int)
    requires |states| > 0 && IsRun(states, DisConnectSteps(states[0].st, id, room, u))
    ensures states[|states| - 1].st == Exited(states[0].st, room, u)
    ensures states[|states| - 1].calls == states[0].calls
  {
    var steps := DisConnectSteps(states[0].st, id, room, u);
    assert Enabled(states[0], steps[0]) && states[1] == Next(states[0], steps[0]);
    if |steps| > 1 {
      assert Enabled(states[1], steps[1]) && states[2] == Next(states[1], steps[1]);
    }
    if |steps| > 2 {
      assert Enabled(states[2], steps[2]) && states[3] == Next(states[2], steps[2]);
    }
    hide IsRun, HDel;
  }

  // ---------- two calls of one user ----------

  function ConnectsOverlapping(a: nat, b: nat, room: int, u: int, name: string): seq<Step> {
    [BeginConnect(a, room, u, name), BeginConnect(b, room, u, name), Proceed(a), Proceed(a), Proceed(b), Proceed(b)]
  }

  function DisConnectsOverlapping(a: nat, b: nat, room: int, u: int): seq<Step> {
    [BeginDisConnect(a, room, u), BeginDisConnect(b, room, u), Proceed(a), Proceed(a), Proceed(b), Proceed(b)]
  }

  /** Two Connects of one user that both HGET before either HSETs count one new member twice. */
  lemma OverlappingConnects(s: State, a: nat, b: nat, room: int, u: int, name: string) returns (states: seq<State>)
    requires a !in s.calls && b !in s.calls && a != b && u != 0 && u !in Hash(s.st, room)
    ensures |states| == 7 && IsRun(states, ConnectsOverlapping(a, b, room, u, name)) && states[0] == s
    ensures states[6].calls == s.calls
    ensures |Hash(states[6].st, room)| == |Hash(s.st, room)| + 1 && Count(states[6].st, room) == Count(s.st, room) + 2
    ensures Unbalances(states[4], Proceed(b), room)
  {
    var steps := ConnectsOverlapping(a, b, room, u, name);
    states := SixSteps(s, a, b, steps, InFlight(room, u, ToHSet(name)), InFlight(room, u, ToHSet(name)));
    var set0, incr := InFlight(room, u, ToHSet(name)), InFlight(room, u, ToIncr);
    hide Hash, Commanded, Count, IsRun;
    Writes(states[2].st, states[3].st, set0, room);
    Writes(states[3].st, states[4].st, incr, room);
    Writes(states[4].st, states[5].st, set0, room);
    Writes(states[5].st, states[6].st, incr, room);
  }

  /** Two DisConnects of one user that both GET before either DECRs take one member out of the count twice. */
  lemma OverlappingDisConnects(s: State, a: nat, b: nat, room: int, u: int) returns (states: seq<State>)
    requires a !in s.calls && b !in s.calls && a != b && u != 0 && room > 0
    requires u in Hash(s.st, room) && Count(s.st, room) > 0
    ensures |states| == 7 && IsRun(states, DisConnectsOverlapping(a, b, room, u)) && states[0] == s
    ensures states[6].calls == s.calls
    ensures |Hash(states[6].st, room)| == |Hash(s.st, room)| - 1 && Count(states[6].st, room) == Count(s.st, room) - 2
    ensures Unbalances(states[5], Proceed(b), room)
  {
    var steps := DisConnectsOverlapping(a, b, room, u);
    states := SixSteps(s, a, b, steps, InFlight(room, u, ToDecr), InFlight(room, u, ToDecr));
    var decr, del := InFlight(room, u, ToDecr), InFlight(room, u, ToHDel(true));
    hide Hash, Commanded, Count, IsRun;
    Writes(states[2].st, states[3].st, decr, room);
    Writes(states[3].st, states[4].st, del, room);
    Writes(states[4].st, states[5].st, decr, room);
    Writes(states[5].st, states[6].st, del, room);
  }

  lemma Writes(st: Store, st': Store, call: InFlight, room: int)
    requires st' == Commanded(st, call) && call.room == room
    ensures Hash(st', room) == Members(Hash(st, room), call)
    ensures var h := Hash(st, room);
            |Hash(st', room)| == |h| + if call.pc.ToHSet? && call.u !in h then 1
                                       else if call.pc.ToHDel? && call.u in h then -1
                                       else 0
    ensures Count(st', room) == Count(st, room) + if call.pc.ToIncr? then 1 else if call.pc.ToDecr? then -1 else 0
  {
    CommandHash(st, call, room);
    CommandSize(st, call, room);
    CommandCount(st, call, room);
  }

  /** Two calls that begin one after the other and then run one after the other. */
  lemma SixSteps(s: State, a: nat, b: nat, steps: seq<Step>, first: InFlight, second: InFlight)
    returns (states: seq<State>)
    requires a !in s.calls && b !in s.calls && a != b && |steps| == 6
    requires !steps[0].Proceed? && Enabled(s, steps[0]) && Next(s, steps[0]) == s.(calls := s.calls[a := first])
    requires var s1 := s.(calls := s.calls[a := first]);
             !steps[1].Proceed? && Enabled(s1, steps[1])
             && Next(s1, steps[1]) == s1.(calls := s1.calls[b := second])
    requires steps[2..] == [Proceed(a), Proceed(a), Proceed(b), Proceed(b)]
    requires first.u != 0 && second.u != 0
    requires (first.pc.ToHSet? && second.pc.ToHSet?) || (first.pc.ToDecr? && second.pc.ToDecr?)
    ensures |states| == 7 && IsRun(states, steps) && states[0] == s && states[6].calls == s.calls
    ensures states[2].st == s.st
    ensures states[3].st == Commanded(states[2].st, first)
    ensures states[4].st == Commanded(states[3].st, first.(pc := FollowUp(first.pc)))
    ensures states[5].st == Commanded(states[4].st, second) && states[4].calls[b] == second
    ensures b in states[5].calls && states[5].calls[b] == second.(pc := FollowUp(second.pc))
    ensures states[6].st == Commanded(states[5].st, second.(pc := FollowUp(second.pc)))
  {
    hide Commanded;
    var s1 := Next(s, steps[0]);
    var s2 := Next(s1, steps[1]);
    assert forall i | 2 <= i < 6 :: steps[i] == steps[2..][i - 2];
    var s3 := Next(s2, Proceed(a));
    var s4 := Next(s3, Proceed(a));
    var s5 := Next(s4, Proceed(b));
    var s6 := Next(s5, Proceed(b));
    assert s4.calls == s.calls[b := second] && s6.calls == s.calls;
    states := [s, s1, s2, s3, s4, s5, s6];
  }

  /** What a call does after its first write. */
  function FollowUp(pc: Pc): Pc {
    if pc.ToHSet? then ToIncr else ToHDel(true)
  }
}
