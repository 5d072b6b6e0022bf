/** The broadcast engine of one bucket: BroadcastRoom spreads requests over bounded worker queues, each worker looks
    the room up and pushes to its members, whose mailboxes are bounded. A state machine over the single channel
    operations, lock sections and pushes; the rooms change by the lock sections of TwoPhasePut. */
module Broadcast {
  import opened Options
  import opened Rooms
  import opened Collections
  import T = TwoPhasePut

  type Chan = T.Chan
  type Ref = T.Ref

  datatype Req = Req(roomId: int, msg: nat)

  /** What a worker is doing: waiting for a request; between taking it and the room lookup; between
      the lookup and the room's lock; or walking the list, with rest still to be pushed to. */
  datatype Worker = Waiting | Taken(req: Req) | Found(req: Req, room: Ref)
      | Pushing(req: Req, room: Ref, rest: seq<Chan>)

  /** One worker with its queue and the senders that wait for a place in it. The last three fields are
      history: what was given to BroadcastRoom for this queue, what was queued, what the worker has finished. */
  datatype Lane = Lane(waiting: multiset<Req>, queue: seq<Req>, worker: Worker,
                       submitted: multiset<Req>, sent: seq<Req>, done: seq<Req>)

  /** A push that reached a channel: of a worker, or of a message to its user alone. */
  datatype Arrival = OfRoom(worker: nat, req: Req) | OfUser(msg: nat)

  /** A mailbox: what is in it, what its owner has taken out, how many pushes found it full; and as history
      all the pushes. */
  datatype Mailbox = Mailbox(queue: seq<Arrival>, consumed: seq<Arrival>, dropped: nat, arrivals: seq<Arrival>)

  const NEW_BOX: Mailbox := Mailbox([], [], 0, [])

  datatype State = State(counter: nat, lanes: seq<Lane>, dir: T.State, mail: map<Chan, Mailbox>)

  datatype Config = Config(routineSize: nat, mailboxSize: nat)

  /** What one worker, or one sender to its queue, does without touching a mailbox. */
  datatype Work = Send(req: Req) | Take | Look | Begin | Finish

  datatype Step =
    | Claim(req: Req)
    | OnLane(k: nat, work: Work)
    | Push(k: nat)
    | Single(c: Chan, msg: nat)
    | Consume(c: Chan)
    | Member(step: T.Step)

  const COUNTER_RANGE: nat := 0x1_0000_0000_0000_0000

  /** The counter after atomic.AddUint64(&b.routinesNum, 1). */
  function Bump(counter: nat): nat {
    (counter + 1) % COUNTER_RANGE
  }

  /** The queue that a request is sent to, from the counter before the call. */
  function Slot(counter: nat, routines: nat): (k: nat)
    requires routines > 0
    ensures k < routines
  {
    Bump(counter) % routines
  }

  function List(dir: T.State, room: Ref): seq<Chan> {
    if room in dir.objects then dir.objects[room].members else []
  }

  /** Put and DeleteChannel change a list only while no worker walks it. */
  predicate Unlocked(lanes: seq<Lane>, room: Ref) {
    forall k | 0 <= k < |lanes| :: !(lanes[k].worker.Pushing? && lanes[k].worker.room == room)
  }

  predicate CanWork(cfg: Config, dir: T.State, lane: Lane, work: Work) {
    match work
    case Send(req) => req in lane.waiting && |lane.queue| < cfg.routineSize
    case Take => lane.worker.Waiting? && lane.queue != []
    case Look => lane.worker.Taken?
    case Begin => lane.worker.Found?
    case Finish => lane.worker.Pushing? && lane.worker.rest == []
  }

  predicate CanPush(w: Worker, mail: map<Chan, Mailbox>) {
    w.Pushing? && w.rest != [] && w.rest[0] in mail
  }

  /** A lookup waits for no lock section of a deletion, which holds the bucket lock for reading. */
  predicate Enabled(cfg: Config, s: State, step: Step) {
    s.lanes != [] &&
    match step
    case Claim(_) => true
    case OnLane(k, work) => k < |s.lanes| && CanWork(cfg, s.dir, s.lanes[k], work)
    case Push(k) => k < |s.lanes| && CanPush(s.lanes[k].worker, s.mail)
    case Single(c, _) => c in s.mail
    case Consume(c) => c in s.mail && s.mail[c].queue != []
    case Member(m) =>
      && T.Enabled(s.dir, m)
      && (m.PutJoin? ==> Unlocked(s.lanes, s.dir.channels[m.c].room.value))
      && (m.DelUnlink? ==> Unlocked(s.lanes, s.dir.del.room))
  }

  function ClaimLane(lane: Lane, req: Req): Lane {
    lane.(waiting := lane.waiting + multiset{req}, submitted := lane.submitted + multiset{req})
  }

  function WorkLane(cfg: Config, dir: T.State, lane: Lane, work: Work): Lane
    requires CanWork(cfg, dir, lane, work)
  {
    match work
    case Send(req) =>
      lane.(waiting := lane.waiting - multiset{req}, queue := lane.queue + [req], sent := lane.sent + [req])
    case Take => lane.(worker := Taken(lane.queue[0]), queue := lane.queue[1..])
    case Look =>
      var req := lane.worker.req;
      if req.roomId in dir.rooms then lane.(worker := Found(req, dir.rooms[req.roomId]))
      else lane.(worker := Waiting, done := lane.done + [req])
    case Begin => lane.(worker := Pushing(lane.worker.req, lane.worker.room, List(dir, lane.worker.room)))
    case Finish => lane.(worker := Waiting, done := lane.done + [lane.worker.req])
  }

  function PushLane(lane: Lane): Lane
    requires lane.worker.Pushing? && lane.worker.rest != []
  {
    lane.(worker := lane.worker.(rest := lane.worker.rest[1..]))
  }

  /** Channel.Push: the mailbox takes the message if it has room, and otherwise drops it. */
  function Offer(cfg: Config, box: Mailbox, a: Arrival): Mailbox {
    var box' := box.(arrivals := box.arrivals + [a]);
    if |box.queue| < cfg.mailboxSize then box'.(queue := box.queue + [a]) else box'.(dropped := box.dropped + 1)
  }

  function Next(cfg: Config, s: State, step: Step): State
    requires Enabled(cfg, s, step)
  {
    match step
    case Claim(req) =>
      var k := Slot(s.counter, |s.lanes|);
      s.(counter := Bump(s.counter), lanes := s.lanes[k := ClaimLane(s.lanes[k], req)])
    case OnLane(k, work) => s.(lanes := s.lanes[k := WorkLane(cfg, s.dir, s.lanes[k], work)])
    case Push(k) =>
      var w := s.lanes[k].worker;
      s.(lanes := s.lanes[k := PushLane(s.lanes[k])],
         mail := s.mail[w.rest[0] := Offer(cfg, s.mail[w.rest[0]], OfRoom(k, w.req))])
    case Single(c, msg) => s.(mail := s.mail[c := Offer(cfg, s.mail[c], OfUser(msg))])
    case Consume(c) =>
      var box := s.mail[c];
      s.(mail := s.mail[c := box.(queue := box.queue[1..], consumed := box.consumed + [box.queue[0]])])
    case Member(m) =>
      s.(dir := T.Next(s.dir, m), mail := if m.PutIndex? then s.mail[m.c := NEW_BOX] else s.mail)
  }

  // ---------- what every schedule keeps ----------

  function InHand(w: Worker): seq<Req> {
    if w.Waiting? then [] else [w.req]
  }

  /** Every request given to BroadcastRoom is waiting for a place in its queue, or has been sent;
      what was sent is, in order, what the worker has finished, what it holds, and what is queued. */
  ghost predicate LaneOk(cfg: Config, lane: Lane) {
    && lane.submitted == lane.waiting + multiset(lane.sent)
    && lane.sent == lane.done + (InHand(lane.worker) + lane.queue)
    && |lane.queue| <= cfg.routineSize
  }

  /** Pushes to a channel are consumed, in the mailbox, or dropped; without drops nothing is lost or reordered. */
  ghost predicate BoxOk(cfg: Config, box: Mailbox) {
    && |box.queue| <= cfg.mailboxSize
    && |box.arrivals| == |box.consumed| + |box.queue| + box.dropped
    && (box.dropped == 0 ==> box.arrivals == box.consumed + box.queue)
    && (box.dropped > 0 ==> |box.arrivals| > cfg.mailboxSize)
  }

  /** A worker has found a room of the right id, and what is left of its walk is in the list, each channel once. */
  ghost predicate WorkerOk(dir: T.State, w: Worker) {
    && (w.Found? || w.Pushing? ==> w.room in dir.objects && dir.objects[w.room].id == w.req.roomId)
    && (w.Pushing? ==> Distinct(w.rest) && forall c | c in w.rest :: c in List(dir, w.room))
  }

  ghost predicate Inv(cfg: Config, s: State) {
    && s.lanes != [] && T.Frame(s.dir)
    && (forall k | 0 <= k < |s.lanes| :: LaneOk(cfg, s.lanes[k]) && WorkerOk(s.dir, s.lanes[k].worker))
    && (forall c | c in s.mail :: BoxOk(cfg, s.mail[c]))
    && (forall c | c in s.dir.channels :: c in s.mail)
  }

  lemma Assoc<T>(a: seq<T>, b: seq<T>, c: seq<T>)
    ensures (a + b) + c == a + (b + c)
  {
  }

  lemma WorkKeepsLane(cfg: Config, dir: T.State, lane: Lane, work: Work)
    requires LaneOk(cfg, lane) && CanWork(cfg, dir, lane, work)
    ensures LaneOk(cfg, WorkLane(cfg, dir, lane, work))
  {
    match work
    case Send(req) => SendKeepsLane(cfg, lane, req);
    case Take =>
      assert [] + lane.queue == [lane.queue[0]] + lane.queue[1..];
    case Look => FinishMovesRequest(lane);
    case Begin =>
    case Finish => FinishMovesRequest(lane);
  }

  lemma SendKeepsLane(cfg: Config, lane: Lane, req: Req)
    requires LaneOk(cfg, lane) && req in lane.waiting && |lane.queue| < cfg.routineSize
    ensures LaneOk(cfg, lane.(waiting := lane.waiting - multiset{req}, queue := lane.queue + [req],
                              sent := lane.sent + [req]))
  {
    Assoc(lane.done, InHand(lane.worker) + lane.queue, [req]);
    Assoc(InHand(lane.worker), lane.queue, [req]);
    assert multiset(lane.sent + [req]) == multiset(lane.sent) + multiset{req};
  }

  lemma FinishMovesRequest(lane: Lane)
    requires !lane.worker.Waiting?
    ensures (lane.done + [lane.worker.req]) + ([] + lane.queue) == lane.done + ([lane.worker.req] + lane.queue)
  {
    Assoc(lane.done, [lane.worker.req], lane.queue);
    assert [] + lane.queue == lane.queue;
  }

  lemma WorkKeepsWorker(cfg: Config, dir: T.State, lane: Lane, work: Work)
    requires T.Frame(dir) && WorkerOk(dir, lane.worker) && CanWork(cfg, dir, lane, work)
    ensures WorkerOk(dir, WorkLane(cfg, dir, lane, work).worker)
  {
    if work.Look? && lane.worker.req.roomId in dir.rooms {
      assert T.IdOk(dir, lane.worker.req.roomId);
    }
    if work.Begin? {
      assert T.ListOk(dir, lane.worker.room);
    }
  }

  /** The sections that change the list of a room. */
  predicate Touches(dir: T.State, m: T.Step, room: Ref) {
    || (m.PutJoin? && m.c in dir.channels && dir.channels[m.c].room == Some(room))
    || (m.DelUnlink? && dir.del.Unlinking? && dir.del.room == room)
  }

  /** Rooms stay, with their ids, and lists change only in the sections that hold the lock of the room. */
  lemma MemberKeepsRooms(dir: T.State, m: T.Step, room: Ref)
    requires T.Enabled(dir, m) && room in dir.objects
    ensures room in T.Next(dir, m).objects && T.Next(dir, m).objects[room].id == dir.objects[room].id
    ensures !Touches(dir, m, room) ==> List(T.Next(dir, m), room) == List(dir, room)
  {
    hide Without;
  }

  lemma MemberKeepsWorker(dir: T.State, m: T.Step, w: Worker)
    requires T.Enabled(dir, m) && WorkerOk(dir, w)
    requires w.Pushing? ==> !Touches(dir, m, w.room)
    ensures WorkerOk(T.Next(dir, m), w)
  {
    if w.Found? || w.Pushing? {
      MemberKeepsRooms(dir, m, w.room);
    }
    hide T.Next, List, Distinct;
  }

  lemma MemberKeepsInv(cfg: Config, s: State, m: T.Step)
    requires Inv(cfg, s) && Enabled(cfg, s, Member(m))
    ensures Inv(cfg, Next(cfg, s, Member(m)))
  {
    T.FrameKept(s.dir, m);
    ChannelsGrow(s.dir, m);
    hide T.Frame, T.Next, T.Enabled, LaneOk, WorkerOk;
    forall k | 0 <= k < |s.lanes|
      ensures WorkerOk(T.Next(s.dir, m), s.lanes[k].worker)
    {
      MemberKeepsWorker(s.dir, m, s.lanes[k].worker);
    }
  }

  lemma ChannelsGrow(dir: T.State, m: T.Step)
    requires T.Enabled(dir, m) && T.Frame(dir)
    ensures T.Next(dir, m).channels.Keys == if m.PutIndex? then dir.channels.Keys + {m.c} else dir.channels.Keys
  {
    if m.DelIndex? {
      T.TakenKeepsChannels(dir, m.c);
    }
    hide T.Taken;
  }

  lemma OfferOk(cfg: Config, box: Mailbox, a: Arrival)
    requires BoxOk(cfg, box)
    ensures BoxOk(cfg, Offer(cfg, box, a))
  {
  }

  lemma LaneReplaced(cfg: Config, s: State, k: nat, lane: Lane, counter: nat)
    requires Inv(cfg, s) && k < |s.lanes| && LaneOk(cfg, lane) && WorkerOk(s.dir, lane.worker)
    ensures Inv(cfg, s.(counter := counter, lanes := s.lanes[k := lane]))
  {
    hide T.Frame, BoxOk, LaneOk, WorkerOk;
  }

  lemma ClaimKeepsLane(cfg: Config, lane: Lane, req: Req)
    requires LaneOk(cfg, lane)
    ensures LaneOk(cfg, ClaimLane(lane, req))
  {
  }

  lemma WorkKeepsInv(cfg: Config, s: State, step: Step)
    requires Inv(cfg, s) && Enabled(cfg, s, step) && (step.Claim? || step.OnLane?)
    ensures Inv(cfg, Next(cfg, s, step))
  {
    hide T.Frame, BoxOk, Slot, Bump, LaneOk, WorkerOk, WorkLane, CanWork;
    if step.Claim? {
      var k := Slot(s.counter, |s.lanes|);
      ClaimKeepsLane(cfg, s.lanes[k], step.req);
      hide Inv;
      LaneReplaced(cfg, s, k, ClaimLane(s.lanes[k], step.req), Bump(s.counter));
    } else {
      WorkKeepsLane(cfg, s.dir, s.lanes[step.k], step.work);
      WorkKeepsWorker(cfg, s.dir, s.lanes[step.k], step.work);
      hide Inv;
      LaneReplaced(cfg, s, step.k, WorkLane(cfg, s.dir, s.lanes[step.k], step.work), s.counter);
    }
  }

  lemma PushKeepsLane(cfg: Config, dir: T.State, lane: Lane)
    requires LaneOk(cfg, lane) && WorkerOk(dir, lane.worker) && lane.worker.Pushing? && lane.worker.rest != []
    ensures LaneOk(cfg, PushLane(lane)) && WorkerOk(dir, PushLane(lane).worker)
  {
  }

  lemma PushKeepsInv(cfg: Config, s: State, k: nat)
    requires Inv(cfg, s) && Enabled(cfg, s, Push(k))
    ensures Inv(cfg, Next(cfg, s, Push(k)))
  {
    hide T.Frame, LaneOk, WorkerOk;
    var w := s.lanes[k].worker;
    OfferOk(cfg, s.mail[w.rest[0]], OfRoom(k, w.req));
    PushKeepsLane(cfg, s.dir, s.lanes[k]);
    LaneReplaced(cfg, s, k, PushLane(s.lanes[k]), s.counter);
    hide PushLane, Offer, BoxOk;
  }

  lemma BoxStepKeepsInv(cfg: Config, s: State, step: Step)
    requires Inv(cfg, s) && Enabled(cfg, s, step) && (step.Single? || step.Consume?)
    ensures Inv(cfg, Next(cfg, s, step))
  {
    hide T.Frame, LaneOk, WorkerOk;
    if step.Single? {
      OfferOk(cfg, s.mail[step.c], OfUser(step.msg));
      hide Offer;
    } else {
      assert BoxOk(cfg, s.mail[step.c]);
    }
  }

  lemma StepKeepsInv(cfg: Config, s: State, step: Step)
    requires Inv(cfg, s) && Enabled(cfg, s, step)
    ensures Inv(cfg, Next(cfg, s, step))
  {
    hide Inv, Next, Enabled;
    if step.Member? {
      MemberKeepsInv(cfg, s, step.step);
    } else if step.Single? || step.Consume? {
      BoxStepKeepsInv(cfg, s, step);
    } else if step.Push? {
      PushKeepsInv(cfg, s, step.k);
    } else {
      WorkKeepsInv(cfg, s, step);
    }
  }

  // ---------- whole runs ----------

  ghost predicate IsRun(cfg: Config, states: seq<State>, steps: seq<Step>) {
    && |states| == |steps| + 1
    && forall i | 0 <= i < |steps| ::
         Enabled(cfg, states[i], steps[i]) && states[i + 1] == Next(cfg, states[i], steps[i])
  }

  /** A bucket as NewBucket makes it. */
  function Start(workers: nat): State {
    State(0, seq(workers, _ => Lane(multiset{}, [], Waiting, multiset{}, [], [])), T.EMPTY, map[])
  }

  lemma StartInv(cfg: Config, workers: nat)
    requires workers > 0
    ensures Inv(cfg, Start(workers))
  {
    T.EmptySound();
  }

  lemma {:induction false} RunKeepsInv(cfg: Config, states: seq<State>, steps: seq<Step>, k: nat)
    requires IsRun(cfg, states, steps) && Inv(cfg, states[0]) && k <= |steps|
    ensures Inv(cfg, states[k])
  {
    hide Inv, Next, Enabled;
    if k > 0 {
      RunKeepsInv(cfg, states, steps, k - 1);
      StepKeepsInv(cfg, states[k - 1], steps[k - 1]);
    }
  }

  ghost predicate Drained(s: State) {
    forall k | 0 <= k < |s.lanes| ::
      s.lanes[k].waiting == multiset{} && s.lanes[k].queue == [] && s.lanes[k].worker.Waiting?
  }

  /** When everything is drained, each worker has finished every request given to BroadcastRoom for its queue, once. */
  lemma DrainedAllApplied(cfg: Config, s: State, k: nat)
    requires Inv(cfg, s) && Drained(s) && k < |s.lanes|
    ensures s.lanes[k].done == s.lanes[k].sent && multiset(s.lanes[k].done) == s.lanes[k].submitted
  {
    assert LaneOk(cfg, s.lanes[k]);
    assert s.lanes[k].done + ([] + []) == s.lanes[k].done;
  }

  /** Pushes to a channel are consumed, queued or dropped. With no more of them than its mailbox holds a channel
      loses nothing: what it has taken out and what is waiting for it are all the pushes, in order. */
  lemma NothingLostWithoutDrops(cfg: Config, s: State, c: Chan)
    requires Inv(cfg, s) && c in s.mail
    ensures var box := s.mail[c];
            && |box.queue| <= cfg.mailboxSize
            && |box.arrivals| == |box.consumed| + |box.queue| + box.dropped
            && (box.dropped == 0 || |box.arrivals| <= cfg.mailboxSize ==> box.consumed + box.queue == box.arrivals)
  {
    assert BoxOk(cfg, s.mail[c]);
  }

  // ---------- what a member receives ----------

  function FromWorker(a: Arrival, k: nat): seq<Req> {
    if a.OfRoom? && a.worker == k then [a.req] else []
  }

  /** What worker k pushed to a channel, in order. */
  function ByWorker(arrivals: seq<Arrival>, k: nat): seq<Req> {
    if arrivals == [] then [] else ByWorker(arrivals[..|arrivals| - 1], k) + FromWorker(arrivals[|arrivals| - 1], k)
  }

  lemma ByWorkerAppend(arrivals: seq<Arrival>, a: Arrival, k: nat)
    ensures ByWorker(arrivals + [a], k) == ByWorker(arrivals, k) + FromWorker(a, k)
  {
    assert (arrivals + [a])[..|arrivals|] == arrivals;
  }

  /** The request for which a worker has found the room without having pushed to its member c yet. */
  function Pending(w: Worker, room: Ref, c: Chan): seq<Req> {
    if w.Found? && w.room == room then [w.req]
    else if w.Pushing? && w.room == room && c in w.rest then [w.req]
    else []
  }

  /** The id of the request leads to the room. */
  predicate LeadsTo(dir: T.State, req: Req, room: Ref) {
    req.roomId in dir.rooms && dir.rooms[req.roomId] == room
  }

  /** The step is a lookup of worker k. */
  predicate Looks(s: State, step: Step, k: nat) {
    step == OnLane(k, Look) && k < |s.lanes| && s.lanes[k].worker.Taken?
  }

  /** The request that worker k looks up in a step and that leads to the room. */
  function FoundNow(s: State, step: Step, k: nat, room: Ref): seq<Req> {
    if Looks(s, step, k) && LeadsTo(s.dir, s.lanes[k].worker.req, room) then [s.lanes[k].worker.req] else []
  }

  /** For a member, a worker's own steps add to what is pending exactly what it finds. */
  lemma WorkPends(cfg: Config, dir: T.State, lane: Lane, work: Work, room: Ref, c: Chan)
    requires CanWork(cfg, dir, lane, work) && c in List(dir, room)
    ensures Pending(WorkLane(cfg, dir, lane, work).worker, room, c)
         == Pending(lane.worker, room, c)
            + if work.Look? && LeadsTo(dir, lane.worker.req, room) then [lane.worker.req] else []
  {
  }

  /** A worker that is about to push to c is walking the list that c is in. */
  lemma TargetRoom(cfg: Config, s: State, k: nat, room: Ref, c: Chan)
    requires Inv(cfg, s) && Enabled(cfg, s, Push(k)) && c in List(s.dir, room)
    ensures var w := s.lanes[k].worker; Distinct(w.rest) && (c == w.rest[0] ==> w.room == room)
  {
    hide LaneOk, BoxOk, Distinct;
    var w := s.lanes[k].worker;
    assert WorkerOk(s.dir, w) && T.ListOk(s.dir, room) && T.ListOk(s.dir, w.room);
    assert w.rest[0] in List(s.dir, w.room);
  }

  /** The walk passes exactly the channel that it pushes to. */
  lemma PushPasses(w: Worker, room: Ref, c: Chan)
    requires w.Pushing? && w.rest != [] && Distinct(w.rest) && (c == w.rest[0] ==> w.room == room)
    ensures Pending(w, room, c)
         == (if c == w.rest[0] then [w.req] else []) + Pending(w.(rest := w.rest[1..]), room, c)
  {
    assert w.rest == [w.rest[0]] + w.rest[1..];
  }

  lemma MembersHaveMail(cfg: Config, s: State, room: Ref, c: Chan)
    requires Inv(cfg, s) && c in List(s.dir, room)
    ensures room in s.dir.objects && c in s.dir.channels && c in s.mail
  {
    assert T.ListOk(s.dir, room);
  }

  /** What a channel has received from a worker, with what that worker has found the room for. */
  function Due(s: State, room: Ref, c: Chan, k: nat): seq<Req>
    requires c in s.mail && k < |s.lanes|
  {
    ByWorker(s.mail[c].arrivals, k) + Pending(s.lanes[k].worker, room, c)
  }

  lemma PushEffect(cfg: Config, s: State, j: nat, c: Chan, k: nat)
    requires Enabled(cfg, s, Push(j)) && k < |s.lanes| && c in s.mail
    ensures var s', w := Next(cfg, s, Push(j)), s.lanes[j].worker;
            && |s'.lanes| == |s.lanes| && c in s'.mail
            && s'.lanes[k].worker == (if j == k then w.(rest := w.rest[1..]) else s.lanes[k].worker)
            && s'.mail[c].arrivals == s.mail[c].arrivals + if c == w.rest[0] then [OfRoom(j, w.req)] else []
  {
    assert s.mail[c].arrivals + [] == s.mail[c].arrivals;
  }

  lemma PushAdds(arrivals: seq<Arrival>, w: Worker, j: nat, k: nat, room: Ref, c: Chan)
    requires w.Pushing? && w.rest != [] && Distinct(w.rest) && (c == w.rest[0] ==> w.room == room)
    ensures var arrivals' := arrivals + if c == w.rest[0] then [OfRoom(j, w.req)] else [];
            && (j != k ==> ByWorker(arrivals', k) == ByWorker(arrivals, k))
            && (j == k ==>
                  ByWorker(arrivals', k) + Pending(w.(rest := w.rest[1..]), room, c)
                  == ByWorker(arrivals, k) + Pending(w, room, c))
  {
    PushPasses(w, room, c);
    hide Distinct, ByWorker, Pending;
    var later := Pending(w.(rest := w.rest[1..]), room, c);
    if c == w.rest[0] {
      ByWorkerAppend(arrivals, OfRoom(j, w.req), k);
      Assoc(ByWorker(arrivals, k), FromWorker(OfRoom(j, w.req), k), later);
      assert ByWorker(arrivals, k) + [] == ByWorker(arrivals, k);
    } else {
      assert arrivals + [] == arrivals && [] + later == later;
    }
  }

  lemma PushDelivers(cfg: Config, s: State, j: nat, room: Ref, c: Chan, k: nat)
    requires Inv(cfg, s) && Enabled(cfg, s, Push(j)) && k < |s.lanes| && c in List(s.dir, room) && c in s.mail
    ensures var s' := Next(cfg, s, Push(j));
            |s'.lanes| == |s.lanes| && c in s'.mail && Due(s', room, c, k) == Due(s, room, c, k)
  {
    TargetRoom(cfg, s, j, room, c);
    PushEffect(cfg, s, j, c, k);
    PushAdds(s.mail[c].arrivals, s.lanes[j].worker, j, k, room, c);
    hide Inv, Distinct, ByWorker, Pending, Next, List;
  }

  lemma WorkDelivers(cfg: Config, s: State, j: nat, work: Work, room: Ref, c: Chan, k: nat)
    requires Enabled(cfg, s, OnLane(j, work)) && k < |s.lanes| && c in List(s.dir, room) && c in s.mail
    ensures var s' := Next(cfg, s, OnLane(j, work));
            && |s'.lanes| == |s.lanes| && c in s'.mail
            && Due(s', room, c, k) == Due(s, room, c, k) + FoundNow(s, OnLane(j, work), k, room)
  {
    WorkPends(cfg, s.dir, s.lanes[j], work, room, c);
    Assoc(ByWorker(s.mail[c].arrivals, k), Pending(s.lanes[k].worker, room, c),
          FoundNow(s, OnLane(j, work), k, room));
    hide WorkLane, ByWorker, Pending, List;
    if j != k || !work.Look? {
      assert FoundNow(s, OnLane(j, work), k, room) == [];
      assert Due(s, room, c, k) + [] == Due(s, room, c, k);
      assert Pending(s.lanes[j].worker, room, c) + [] == Pending(s.lanes[j].worker, room, c);
    }
  }

  lemma OtherDelivers(cfg: Config, s: State, step: Step, room: Ref, c: Chan, k: nat)
    requires Inv(cfg, s) && Enabled(cfg, s, step) && k < |s.lanes| && c in s.dir.channels && c in s.mail
    requires !step.Push? && !step.OnLane?
    ensures var s' := Next(cfg, s, step);
            |s'.lanes| == |s.lanes| && c in s'.mail && Due(s', room, c, k) == Due(s, room, c, k)
  {
    hide Inv, ByWorker, Pending, Slot, Bump, T.Next;
    if step.Single? {
      var arrivals := s.mail[c].arrivals;
      ByWorkerAppend(arrivals, OfUser(step.msg), k);
      assert ByWorker(arrivals, k) + [] == ByWorker(arrivals, k);
    }
  }

  /** One step, for a channel that is a member before it: what it has received from a worker, with what that worker has
      found the room for, becomes more by exactly what the worker finds the room for in this step. */
  lemma StepDelivers(cfg: Config, s: State, step: Step, room: Ref, c: Chan, k: nat)
    requires Inv(cfg, s) && Enabled(cfg, s, step) && k < |s.lanes| && c in List(s.dir, room)
    ensures var s' := Next(cfg, s, step);
            && |s'.lanes| == |s.lanes| && c in s.mail && c in s'.mail
            && Due(s', room, c, k) == Due(s, room, c, k) + FoundNow(s, step, k, room)
  {
    MembersHaveMail(cfg, s, room, c);
    if step.OnLane? {
      WorkDelivers(cfg, s, step.k, step.work, room, c, k);
      hide *;
    } else {
      assert FoundNow(s, step, k, room) == [];
      hide Inv, Due, Next, List;
      assert Due(s, room, c, k) + [] == Due(s, room, c, k);
      if step.Push? {
        PushDelivers(cfg, s, step.k, room, c, k);
      } else {
        OtherDelivers(cfg, s, step, room, c, k);
      }
      hide *;
    }
  }

  /** The requests that worker k looks up in the steps from i to j, in order, and those of them that lead to the
      room. */
  function LookedUp(states: seq<State>, steps: seq<Step>, i: nat, j: nat, k: nat): seq<Req>
    requires i <= j <= |steps| && |states| == |steps| + 1
  {
    if i == j then []
    else LookedUp(states, steps, i, j - 1, k)
         + if Looks(states[j - 1], steps[j - 1], k) then [states[j - 1].lanes[k].worker.req] else []
  }

  function FoundIn(states: seq<State>, steps: seq<Step>, i: nat, j: nat, k: nat, room: Ref): seq<Req>
    requires i <= j <= |steps| && |states| == |steps| + 1
  {
    if i == j then []
    else FoundIn(states, steps, i, j - 1, k, room) + FoundNow(states[j - 1], steps[j - 1], k, room)
  }

  lemma FoundStep(states: seq<State>, steps: seq<Step>, i: nat, j: nat, k: nat, room: Ref)
    requires i < j <= |steps| && |states| == |steps| + 1
    ensures FoundIn(states, steps, i, j, k, room)
         == FoundIn(states, steps, i, j - 1, k, room) + FoundNow(states[j - 1], steps[j - 1], k, room)
  {
  }

  /** A channel that was a member once and is one later was one all the time in between. */
  lemma StepKeepsMember(cfg: Config, s: State, step: Step, room: Ref, c: Chan)
    requires Inv(cfg, s) && Enabled(cfg, s, step) && c in s.dir.channels && !s.dir.channels[c].put.Indexed?
    ensures var s' := Next(cfg, s, step);
            && c in s'.dir.channels && !s'.dir.channels[c].put.Indexed?
            && (c in List(s'.dir, room) ==> c in List(s.dir, room))
  {
    if step.Member? {
      T.JoinsOnce(s.dir, step.step, room, c);
    }
    hide Slot, Bump, T.Next, T.Frame, LaneOk, WorkerOk, BoxOk, Offer;
  }

  lemma MemberHasJoined(cfg: Config, s: State, room: Ref, c: Chan)
    requires Inv(cfg, s) && c in List(s.dir, room)
    ensures c in s.dir.channels && !s.dir.channels[c].put.Indexed?
  {
    assert T.ListOk(s.dir, room);
  }

  lemma {:induction false} StaysJoined(cfg: Config, states: seq<State>, steps: seq<Step>, i: nat, j: nat,
                                       room: Ref, c: Chan)
    requires IsRun(cfg, states, steps) && Inv(cfg, states[0]) && i <= j <= |steps| && c in List(states[i].dir, room)
    ensures c in states[j].dir.channels && !states[j].dir.channels[c].put.Indexed?
  {
    hide Inv, Next, Enabled, List;
    RunKeepsInv(cfg, states, steps, i);
    MemberHasJoined(cfg, states[i], room, c);
    if i < j {
      StaysJoined(cfg, states, steps, i, j - 1, room, c);
      RunKeepsInv(cfg, states, steps, j - 1);
      StepKeepsMember(cfg, states[j - 1], steps[j - 1], room, c);
    }
  }

  /** For every schedule and any two moments: what a member of a room has received from a worker, with what that worker
      has found the room for and not yet pushed to it, has become more by exactly those requests that the worker looked
      up in between while their id led to the room, each once and in order. */
  lemma {:induction false} MemberReceives(cfg: Config, states: seq<State>, steps: seq<Step>, i: nat, j: nat,
                                          room: Ref, c: Chan, k: nat)
    requires IsRun(cfg, states, steps) && Inv(cfg, states[0]) && i <= j <= |steps| && k < |states[i].lanes|
    requires c in List(states[i].dir, room) && c in List(states[j].dir, room)
    ensures |states[j].lanes| == |states[i].lanes| && c in states[i].mail && c in states[j].mail
    ensures Due(states[j], room, c, k) == Due(states[i], room, c, k) + FoundIn(states, steps, i, j, k, room)
  {
    hide Inv, Next, Enabled, List, Due, FoundNow, Looks, LookedUp;
    RunKeepsInv(cfg, states, steps, i);
    MembersHaveMail(cfg, states[i], room, c);
    var due := Due(states[i], room, c, k);
    if i == j {
      assert FoundIn(states, steps, i, j, k, room) == [] && due + [] == due;
    } else {
      var s, step := states[j - 1], steps[j - 1];
      RunKeepsInv(cfg, states, steps, j - 1);
      StaysJoined(cfg, states, steps, i, j - 1, room, c);
      StepKeepsMember(cfg, s, step, room, c);
      MemberReceives(cfg, states, steps, i, j - 1, room, c, k);
      StepDelivers(cfg, s, step, room, c, k);
      FoundStep(states, steps, i, j, k, room);
      hide FoundIn;
      Assoc(due, FoundIn(states, steps, i, j - 1, k, room), FoundNow(s, step, k, room));
    }
    hide *;
  }

  // ---------- exactly once? ----------

  /** The requests for one room, in order. */
  function Only(reqs: seq<Req>, roomId: int): seq<Req> {
    if reqs == [] then [] else Only(reqs[..|reqs| - 1], roomId) + ForRoom(reqs[|reqs| - 1], roomId)
  }

  function ForRoom(req: Req, roomId: int): seq<Req> {
    if req.roomId == roomId then [req] else []
  }

  lemma OnlyAppend(reqs: seq<Req>, req: Req, roomId: int)
    ensures Only(reqs + [req], roomId) == Only(reqs, roomId) + ForRoom(req, roomId)
  {
    assert (reqs + [req])[..|reqs|] == reqs;
  }

  /** What a worker has looked up: what it has finished, and what it has found a room for. */
  function Heard(lane: Lane): seq<Req> {
    lane.done + if lane.worker.Found? || lane.worker.Pushing? then [lane.worker.req] else []
  }

  function LookedNow(s: State, step: Step, k: nat): seq<Req> {
    if Looks(s, step, k) then [s.lanes[k].worker.req] else []
  }

  lemma StepHears(cfg: Config, s: State, step: Step, k: nat)
    requires Enabled(cfg, s, step) && k < |s.lanes|
    ensures var s' := Next(cfg, s, step);
            |s'.lanes| == |s.lanes| && Heard(s'.lanes[k]) == Heard(s.lanes[k]) + LookedNow(s, step, k)
  {
    var heard := Heard(s.lanes[k]);
    assert heard + [] == heard && s.lanes[k].done + [] == s.lanes[k].done;
    hide Slot, Bump, T.Next, Offer, List;
  }

  lemma {:induction false} RunHears(cfg: Config, states: seq<State>, steps: seq<Step>, i: nat, j: nat, k: nat)
    requires IsRun(cfg, states, steps) && i <= j <= |steps| && k < |states[i].lanes|
    ensures |states[j].lanes| == |states[i].lanes|
    ensures Heard(states[j].lanes[k]) == Heard(states[i].lanes[k]) + LookedUp(states, steps, i, j, k)
  {
    hide Next, Enabled, Looks, Heard;
    var heard := Heard(states[i].lanes[k]);
    if i == j {
      assert heard + [] == heard;
    } else {
      RunHears(cfg, states, steps, i, j - 1, k);
      StepHears(cfg, states[j - 1], steps[j - 1], k);
      Assoc(heard, LookedUp(states, steps, i, j - 1, k), LookedNow(states[j - 1], steps[j - 1], k));
      assert LookedUp(states, steps, i, j, k)
          == LookedUp(states, steps, i, j - 1, k) + LookedNow(states[j - 1], steps[j - 1], k);
      hide LookedUp, LookedNow;
    }
    hide IsRun;
  }

  /** Between drained moments a worker looks up exactly what is sent to its queue. */
  lemma LookedUpIsSent(cfg: Config, states: seq<State>, steps: seq<Step>, i: nat, j: nat, k: nat)
    requires IsRun(cfg, states, steps) && Inv(cfg, states[0]) && i <= j <= |steps| && k < |states[i].lanes|
    requires Drained(states[i]) && Drained(states[j])
    ensures |states[j].lanes| == |states[i].lanes|
    ensures states[j].lanes[k].sent == states[i].lanes[k].sent + LookedUp(states, steps, i, j, k)
  {
    hide Inv, Next, Enabled, LookedUp;
    RunKeepsInv(cfg, states, steps, i);
    RunKeepsInv(cfg, states, steps, j);
    RunHears(cfg, states, steps, i, j, k);
    DrainedAllApplied(cfg, states[i], k);
    DrainedAllApplied(cfg, states[j], k);
    assert states[i].lanes[k].done + [] == states[i].lanes[k].done;
    assert states[j].lanes[k].done + [] == states[j].lanes[k].done;
  }

  /** A request for the id of the room is looked up and does not lead to the room. */
  predicate Misses(s: State, step: Step, k: nat, room: Ref) {
    && Looks(s, step, k) && room in s.dir.objects && s.lanes[k].worker.req.roomId == s.dir.objects[room].id
    && !LeadsTo(s.dir, s.lanes[k].worker.req, room)
  }

  lemma {:induction false} RoomStays(cfg: Config, states: seq<State>, steps: seq<Step>, i: nat, j: nat, room: Ref)
    requires IsRun(cfg, states, steps) && i <= j <= |steps| && room in states[i].dir.objects
    ensures room in states[j].dir.objects && states[j].dir.objects[room].id == states[i].dir.objects[room].id
  {
    if i < j {
      RoomStays(cfg, states, steps, i, j - 1, room);
      if steps[j - 1].Member? {
        MemberKeepsRooms(states[j - 1].dir, steps[j - 1].step, room);
      }
      hide T.Next, Slot, Bump, WorkLane, Offer;
    }
  }

  function OnlyNow(s: State, step: Step, k: nat, id: int): seq<Req> {
    if Looks(s, step, k) then ForRoom(s.lanes[k].worker.req, id) else []
  }

  /** A step finds the room for what it looks up for the room's id exactly if it does not miss. */
  lemma StepFinds(cfg: Config, s: State, step: Step, k: nat, room: Ref)
    requires T.Frame(s.dir) && room in s.dir.objects
    ensures var only := OnlyNow(s, step, k, s.dir.objects[room].id);
            if Misses(s, step, k, room) then FoundNow(s, step, k, room) == [] && |only| == 1
            else FoundNow(s, step, k, room) == only
  {
    assert forall id | id in s.dir.rooms :: T.IdOk(s.dir, id);
  }

  /** No lookup of the worker misses the room in the steps from i to j. */
  ghost predicate NeverMisses(states: seq<State>, steps: seq<Step>, i: nat, j: nat, k: nat, room: Ref)
    requires j <= |steps| && |states| == |steps| + 1
  {
    forall t | i <= t < j :: !Misses(states[t], steps[t], k, room)
  }

  lemma NeverMissesStep(states: seq<State>, steps: seq<Step>, i: nat, j: nat, k: nat, room: Ref)
    requires i < j <= |steps| && |states| == |steps| + 1
    ensures NeverMisses(states, steps, i, j, k, room)
       <==> NeverMisses(states, steps, i, j - 1, k, room) && !Misses(states[j - 1], steps[j - 1], k, room)
  {
    hide Misses;
  }

  /** found is only, or is shorter. */
  predicate Within(found: seq<Req>, only: seq<Req>, all: bool) {
    |found| <= |only| && (if all then found == only else |found| < |only|)
  }

  /** The requests that are found are all those for the id exactly if none is missed. */
  lemma {:induction false} FoundExactly(cfg: Config, states: seq<State>, steps: seq<Step>, i: nat, j: nat, k: nat,
                                        room: Ref)
    requires IsRun(cfg, states, steps) && Inv(cfg, states[0]) && i <= j <= |steps| && room in states[i].dir.objects
    ensures Within(FoundIn(states, steps, i, j, k, room),
                   Only(LookedUp(states, steps, i, j, k), states[i].dir.objects[room].id),
                   NeverMisses(states, steps, i, j, k, room))
  {
    hide Inv, Next, Enabled, FoundNow, LeadsTo, Misses, OnlyNow;
    var id := states[i].dir.objects[room].id;
    if i < j {
      var s, step := states[j - 1], steps[j - 1];
      FoundExactly(cfg, states, steps, i, j - 1, k, room);
      RunKeepsInv(cfg, states, steps, j - 1);
      RoomStays(cfg, states, steps, i, j - 1, room);
      FrameOf(cfg, s);
      StepFinds(cfg, s, step, k, room);
      NeverMissesStep(states, steps, i, j, k, room);
      OnlyStep(states, steps, i, j, k, id);
      FoundStep(states, steps, i, j, k, room);
      hide *;
      WithinGrows(FoundIn(states, steps, i, j - 1, k, room), FoundNow(s, step, k, room),
                  Only(LookedUp(states, steps, i, j - 1, k), id), OnlyNow(s, step, k, id),
                  NeverMisses(states, steps, i, j - 1, k, room), Misses(s, step, k, room));
    }
    hide IsRun;
  }

  lemma WithinGrows(found: seq<Req>, now: seq<Req>, only: seq<Req>, onlyNow: seq<Req>, all: bool, miss: bool)
    requires Within(found, only, all) && (if miss then now == [] && |onlyNow| == 1 else now == onlyNow)
    ensures Within(found + now, only + onlyNow, all && !miss)
  {
    assert found + [] == found;
  }

  lemma OnlyStep(states: seq<State>, steps: seq<Step>, i: nat, j: nat, k: nat, id: int)
    requires i < j <= |steps| && |states| == |steps| + 1
    ensures Only(LookedUp(states, steps, i, j, k), id)
         == Only(LookedUp(states, steps, i, j - 1, k), id) + OnlyNow(states[j - 1], steps[j - 1], k, id)
  {
    var looked := LookedUp(states, steps, i, j - 1, k);
    if Looks(states[j - 1], steps[j - 1], k) {
      OnlyAppend(looked, states[j - 1].lanes[k].worker.req, id);
    } else {
      assert looked + [] == looked && Only(looked, id) + [] == Only(looked, id);
    }
    hide Only;
  }

  lemma FrameOf(cfg: Config, s: State)
    requires Inv(cfg, s)
    ensures T.Frame(s.dir)
  {
  }

  /** Between two drained moments at which a channel is a member of a room it has received each request that was sent
      to a worker for the room's id exactly once and in order, if and only if no lookup of that worker for the id
      missed the room. */
  lemma MemberReceivesExactlyOnce(cfg: Config, states: seq<State>, steps: seq<Step>, i: nat, j: nat,
                                  room: Ref, c: Chan, k: nat)
    requires IsRun(cfg, states, steps) && Inv(cfg, states[0]) && i <= j <= |steps| && k < |states[i].lanes|
    requires Drained(states[i]) && Drained(states[j])
    requires c in List(states[i].dir, room) && c in List(states[j].dir, room)
    ensures |states[j].lanes| == |states[i].lanes|
    ensures room in states[i].dir.objects && c in states[i].mail && c in states[j].mail
    ensures var sent := states[i].lanes[k].sent; var sent' := states[j].lanes[k].sent;
            var received, received' := ByWorker(states[i].mail[c].arrivals, k), ByWorker(states[j].mail[c].arrivals, k);
            && sent <= sent'
            && (received' == received + Only(sent'[|sent|..], states[i].dir.objects[room].id)
                <==> NeverMisses(states, steps, i, j, k, room))
  {
    hide Inv, Next, Enabled, ByWorker, Only, FoundIn, LookedUp, NeverMisses;
    RunKeepsInv(cfg, states, steps, i);
    MembersHaveMail(cfg, states[i], room, c);
    MemberReceives(cfg, states, steps, i, j, room, c, k);
    LookedUpIsSent(cfg, states, steps, i, j, k);
    FoundExactly(cfg, states, steps, i, j, k, room);
    var received, received' := ByWorker(states[i].mail[c].arrivals, k), ByWorker(states[j].mail[c].arrivals, k);
    assert received + [] == received && received' + [] == received';
    assert Due(states[i], room, c, k) == received && Due(states[j], room, c, k) == received';
    var sent, looked := states[i].lanes[k].sent, LookedUp(states, steps, i, j, k);
    assert (sent + looked)[|sent|..] == looked;
    var found, only := FoundIn(states, steps, i, j, k, room), Only(looked, states[i].dir.objects[room].id);
    assert received' == received + found;
    if received' == received + only {
      CancelPrefix(received, found, only);
    }
    hide *;
  }

  // ---------- when are lookups missed? ----------

  /** The last section of a deletion unmaps the id. */
  predicate UnmapsNow(s: State, step: Step, id: int) {
    step.Member? && T.Unmaps(s.dir, step.step, id)
  }

  ghost predicate NeverUnmapped(states: seq<State>, steps: seq<Step>, i: nat, t: nat, id: int)
    requires t <= |steps| && |states| == |steps| + 1
  {
    forall u | i <= u < t :: !UnmapsNow(states[u], steps[u], id)
  }

  lemma NeverUnmappedStep(states: seq<State>, steps: seq<Step>, i: nat, t: nat, id: int)
    requires i < t <= |steps| && |states| == |steps| + 1
    ensures NeverUnmapped(states, steps, i, t, id)
       <==> NeverUnmapped(states, steps, i, t - 1, id) && !UnmapsNow(states[t - 1], steps[t - 1], id)
  {
    hide UnmapsNow;
  }

  lemma {:induction false} LeadsUntilUnmapped(cfg: Config, states: seq<State>, steps: seq<Step>, i: nat, t: nat,
                                              room: Ref)
    requires IsRun(cfg, states, steps) && Inv(cfg, states[0]) && i <= t <= |steps| && T.Leads(states[i].dir, room)
    ensures T.Leads(states[t].dir, room) <==> NeverUnmapped(states, steps, i, t, states[i].dir.objects[room].id)
  {
    assert room in states[i].dir.objects;
    hide Inv, Next, Enabled, T.Leads, UnmapsNow;
    if i < t {
      LeadsUntilUnmapped(cfg, states, steps, i, t - 1, room);
      RunKeepsInv(cfg, states, steps, t - 1);
      RoomStays(cfg, states, steps, i, t - 1, room);
      LeadStep(cfg, states[t - 1], steps[t - 1], room);
      NeverUnmappedStep(states, steps, i, t, states[i].dir.objects[room].id);
      hide NeverUnmapped;
    }
    hide IsRun;
  }

  lemma LeadStep(cfg: Config, s: State, step: Step, room: Ref)
    requires Inv(cfg, s) && Enabled(cfg, s, step) && room in s.dir.objects
    ensures T.Leads(Next(cfg, s, step).dir, room)
       <==> T.Leads(s.dir, room) && !UnmapsNow(s, step, s.dir.objects[room].id)
  {
    if step.Member? {
      if T.Leads(s.dir, room) {
        T.LeadLostExactly(s.dir, step.step, room);
      } else {
        T.LeadNeverReturns(s.dir, step.step, room);
      }
    }
    hide T.Next, T.Frame, Slot, Bump, WorkLane, Offer;
  }

  /** Worker k looks up a request for the id. */
  predicate LooksFor(s: State, step: Step, k: nat, id: int) {
    Looks(s, step, k) && s.lanes[k].worker.req.roomId == id
  }

  /** Of a room that can be found at the first moment: all lookups for its id hit it exactly if none of them
      comes after the id has been unmapped. */
  lemma MissesAfterUnmapped(cfg: Config, states: seq<State>, steps: seq<Step>, i: nat, j: nat, k: nat, room: Ref)
    requires IsRun(cfg, states, steps) && Inv(cfg, states[0]) && i <= j <= |steps| && T.Leads(states[i].dir, room)
    ensures var id := states[i].dir.objects[room].id;
            NeverMisses(states, steps, i, j, k, room)
            <==> forall t | i <= t < j && LooksFor(states[t], steps[t], k, id) :: NeverUnmapped(states, steps, i, t, id)
  {
    var id := states[i].dir.objects[room].id;
    forall t | i <= t < j
      ensures Misses(states[t], steps[t], k, room)
         <==> LooksFor(states[t], steps[t], k, id) && !NeverUnmapped(states, steps, i, t, id)
    {
      LeadsUntilUnmapped(cfg, states, steps, i, t, room);
      RoomStays(cfg, states, steps, i, t, room);
      hide IsRun, Inv, Looks, NeverUnmapped;
    }
    hide *;
  }

  lemma {:induction false} StaysMember(cfg: Config, states: seq<State>, steps: seq<Step>, i: nat, t: nat, j: nat,
                                       room: Ref, c: Chan)
    requires IsRun(cfg, states, steps) && Inv(cfg, states[0]) && i <= t <= j <= |steps|
    requires c in List(states[i].dir, room) && c in List(states[j].dir, room)
    ensures c in List(states[t].dir, room)
    decreases j
  {
    hide Inv, Next, Enabled, List;
    if t < j {
      RunKeepsInv(cfg, states, steps, j - 1);
      StaysJoined(cfg, states, steps, i, j - 1, room, c);
      StepKeepsMember(cfg, states[j - 1], steps[j - 1], room, c);
      StaysMember(cfg, states, steps, i, t, j - 1, room, c);
    }
  }

  predicate Spoils(s: State, step: Step) {
    step.Member? && (T.LosesList(s.dir, step.step) || T.SweepsLive(s.dir, step.step))
  }

  lemma {:induction false} RunKeepsDir(cfg: Config, states: seq<State>, steps: seq<Step>, k: nat)
    requires IsRun(cfg, states, steps) && states[0].dir == T.EMPTY && k <= |steps|
    requires forall i | 0 <= i < k :: !Spoils(states[i], steps[i])
    ensures T.Frame(states[k].dir) && T.Sound(states[k].dir) && T.Coherent(states[k].dir)
  {
    T.EmptyInv();
    hide T.Frame, T.Sound, T.Coherent, T.Next, T.Enabled;
    if k > 0 {
      RunKeepsDir(cfg, states, steps, k - 1);
      var s, step := states[k - 1], steps[k - 1];
      assert !Spoils(s, step);
      if step.Member? {
        T.FrameKept(s.dir, step.step);
        T.SoundLostExactly(s.dir, step.step);
        T.CoherenceLostExactly(s.dir, step.step);
      }
      hide Slot, Bump, WorkLane, Offer, T.LosesList, T.SweepsLive;
    }
  }

  lemma MemberIsFound(dir: T.State, room: Ref, c: Chan)
    requires T.Frame(dir) && T.Sound(dir) && T.Coherent(dir) && c in List(dir, room)
    ensures T.Leads(dir, room)
  {
    assert Consistent(dir.objects[room]);
  }

  /** In every schedule that starts with a new bucket, as long as no deletion has lost a list or unmapped a live
      room, no lookup for a room with a member misses it: between drained moments a member receives every request
      for its room exactly once. */
  lemma NothingMissedUnlessSpoilt(cfg: Config, states: seq<State>, steps: seq<Step>, i: nat, j: nat, k: nat,
                                  room: Ref, c: Chan)
    requires IsRun(cfg, states, steps) && states[0] == Start(|states[0].lanes|) && i <= j <= |steps|
    requires |states[0].lanes| > 0 && c in List(states[i].dir, room) && c in List(states[j].dir, room)
    requires forall t | 0 <= t < j :: !Spoils(states[t], steps[t])
    ensures NeverMisses(states, steps, i, j, k, room)
  {
    StartInv(cfg, |states[0].lanes|);
    forall t | i <= t < j
      ensures !Misses(states[t], steps[t], k, room)
    {
      StaysMember(cfg, states, steps, i, t, j, room, c);
      RunKeepsDir(cfg, states, steps, t);
      MemberIsFound(states[t].dir, room, c);
      hide IsRun, Inv, List, Looks, Start, T.Frame, T.Sound, T.Coherent, Spoils;
    }
    hide *;
  }

  // ---------- a live room that hears nothing ----------

  const IDLE_LANE: Lane := Lane(multiset{}, [], Waiting, multiset{}, [], [])

  /** The membership steps of TwoPhasePut.OVERTAKEN, and then one request for the room. */
  const UNHEARD: seq<Step> :=
    seq(12, i requires 0 <= i < 12 => Member(T.OVERTAKEN[i]))
    + [Claim(Req(7, 1)), OnLane(0, Send(Req(7, 1))), OnLane(0, Take), OnLane(0, Look)]

  function Boxes(dir: T.State): map<Chan, Mailbox> {
    map c | c in dir.channels :: NEW_BOX
  }

  function Quiet(counter: nat, lane: Lane, dir: T.State): State {
    State(counter, [lane], dir, Boxes(dir))
  }

  /** The states of the run. */
  function Unheard(): seq<State> {
    var last, req := T.OVERTAKEN_STATES[12], Req(7, 1);
    seq(13, i requires 0 <= i < 13 => Quiet(0, IDLE_LANE, T.OVERTAKEN_STATES[i]))
    + [Quiet(1, Lane(multiset{req}, [], Waiting, multiset{req}, [], []), last),
       Quiet(1, Lane(multiset{}, [req], Waiting, multiset{req}, [req], []), last),
       Quiet(1, Lane(multiset{}, [], Taken(req), multiset{req}, [req], []), last),
       Quiet(1, Lane(multiset{}, [], Waiting, multiset{req}, [req], [req]), last)]
  }

  lemma MembershipRuns(cfg: Config, dir: T.State, m: T.Step)
    requires T.Enabled(dir, m) && T.Frame(dir)
    ensures Enabled(cfg, Quiet(0, IDLE_LANE, dir), Member(m))
    ensures Next(cfg, Quiet(0, IDLE_LANE, dir), Member(m)) == Quiet(0, IDLE_LANE, T.Next(dir, m))
  {
    BoxesAfter(dir, m);
    hide T.Next, T.Frame, Boxes;
  }

  lemma BoxesAfter(dir: T.State, m: T.Step)
    requires T.Enabled(dir, m) && T.Frame(dir)
    ensures Boxes(T.Next(dir, m)) == if m.PutIndex? then Boxes(dir)[m.c := NEW_BOX] else Boxes(dir)
  {
    ChannelsGrow(dir, m);
    hide T.Next, T.Frame, T.Enabled;
  }

  lemma RequestRuns(cfg: Config, i: nat)
    requires cfg.routineSize > 0 && 12 <= i < 16
    ensures Enabled(cfg, Unheard()[i], UNHEARD[i]) && Unheard()[i + 1] == Next(cfg, Unheard()[i], UNHEARD[i])
  {
    assert 7 !in T.OVERTAKEN_STATES[12].rooms;
    hide Boxes;
    var req := Req(7, 1);
    assert multiset{} + multiset{req} == multiset{req} && multiset{req} - multiset{req} == multiset{};
    assert [] + [req] == [req] && [req][1..] == [];
    assert Slot(0, 1) == 0 && Bump(0) == 1;
    hide Slot, Bump;
    if i == 12 {} else if i == 13 {} else if i == 14 {} else {}
  }

  /** From a new bucket with one worker: a request for the room of channel 3 is sent and finished, channel 3 is a member
      before and after, and it receives nothing. */
  lemma LiveRoomHearsNothing(cfg: Config)
    requires cfg.routineSize > 0
    ensures var states := Unheard();
            && IsRun(cfg, states, UNHEARD) && states[0] == Start(1) && Drained(states[12]) && Drained(states[16])
            && 3 in List(states[12].dir, 2) && 3 in List(states[16].dir, 2) && states[16].dir.objects[2].id == 7
            && states[12].lanes[0].sent == [] && states[16].lanes[0].sent == [Req(7, 1)]
            && 3 in states[16].mail && states[16].mail[3].arrivals == []
  {
    T.LiveRoomUnmapped();
    var states := Unheard();
    forall i | 0 <= i < 16
      ensures Enabled(cfg, states[i], UNHEARD[i]) && states[i + 1] == Next(cfg, states[i], UNHEARD[i])
    {
      if i < 12 {
        T.EmptySound();
        T.RunKeepsFrame(T.OVERTAKEN_STATES, T.OVERTAKEN, i);
        MembershipRuns(cfg, T.OVERTAKEN_STATES[i], T.OVERTAKEN[i]);
      } else {
        RequestRuns(cfg, i);
      }
    }
    hide Next, Enabled, T.Next, T.Enabled;
  }
}
