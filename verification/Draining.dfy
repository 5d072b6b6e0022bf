/** That the moments at which everything is drained are reached: the workers of Broadcast never block each other, and
    are done after a bounded number of steps; and so are those of Delivery, unless the task server stops. */
module Draining {
  import opened Rooms
  import opened Broadcast
  import T = TwoPhasePut

  /** A step of a worker, or of a sender that waits for a place in a queue. */
  predicate OfWorker(step: Step) { step.OnLane? || step.Push? }

  /** How many steps may still be made for what a worker holds, if lists have at most n members. */
  function InHandWork(w: Worker, n: nat): nat {
    match w
    case Waiting => 0
    case Taken(_) => n + 4
    case Found(_, _) => n + 3
    case Pushing(_, _, rest) => |rest| + 1
  }

  function LaneWork(lane: Lane, n: nat): nat {
    |lane.waiting| * (n + 6) + |lane.queue| * (n + 5) + InHandWork(lane.worker, n)
  }

  function LanesWork(lanes: seq<Lane>, n: nat): nat {
    if lanes == [] then 0 else LanesWork(lanes[..|lanes| - 1], n) + LaneWork(lanes[|lanes| - 1], n)
  }

  function ToDo(s: State): nat { LanesWork(s.lanes, |s.dir.channels|) }

  lemma {:induction false} WorkUpdate(lanes: seq<Lane>, k: nat, lane: Lane, n: nat)
    requires k < |lanes|
    ensures LanesWork(lanes[k := lane], n) == LanesWork(lanes, n) + LaneWork(lane, n) - LaneWork(lanes[k], n)
  {
    var last := |lanes| - 1;
    var lanes' := lanes[k := lane];
    hide LaneWork;
    if k == last {
      assert lanes'[..last] == lanes[..last];
    } else {
      WorkUpdate(lanes[..last], k, lane, n);
      assert lanes'[..last] == lanes[..last][k := lane];
    }
  }

  lemma ListsAreShort(dir: T.State, room: Ref)
    requires T.Frame(dir)
    ensures |List(dir, room)| <= |dir.channels|
  {
    if room in dir.objects {
      assert T.ListOk(dir, room);
      DistinctWithin(List(dir, room), dir.channels.Keys);
    }
    hide T.Frame, Distinct;
  }

  lemma {:induction false} DistinctWithin(s: seq<Chan>, within: set<Chan>)
    requires Distinct(s) && forall c | c in s :: c in within
    ensures |s| <= |within|
  {
    if s != [] {
      assert s == [s[0]] + s[1..];
      DistinctWithin(s[1..], within - {s[0]});
    }
  }

  /** Every step of a worker leaves less to do. */
  lemma WorkShrinks(cfg: Config, s: State, step: Step)
    requires Inv(cfg, s) && Enabled(cfg, s, step) && OfWorker(step)
    ensures Next(cfg, s, step).dir == s.dir && ToDo(Next(cfg, s, step)) < ToDo(s)
  {
    if step.OnLane? {
      StepOnLane(cfg, s, step.k, step.work);
      LaneShrinks(cfg, s.dir, s.lanes[step.k], step.work);
      WorkUpdate(s.lanes, step.k, WorkLane(cfg, s.dir, s.lanes[step.k], step.work), |s.dir.channels|);
      hide WorkLane, CanWork, LaneWork, LanesWork, Next;
    } else {
      PushShrinks(cfg, s, step.k);
    }
    hide Next;
  }

  lemma StepOnLane(cfg: Config, s: State, k: nat, work: Work)
    requires Enabled(cfg, s, OnLane(k, work))
    ensures var s' := Next(cfg, s, OnLane(k, work));
            s'.dir == s.dir && s'.lanes == s.lanes[k := WorkLane(cfg, s.dir, s.lanes[k], work)]
  {
    hide WorkLane, CanWork;
  }

  lemma PushShrinks(cfg: Config, s: State, k: nat)
    requires Enabled(cfg, s, Push(k))
    ensures var s' := Next(cfg, s, Push(k)); s'.dir == s.dir && ToDo(s') < ToDo(s)
  {
    var lane := PushLane(s.lanes[k]);
    WorkUpdate(s.lanes, k, lane, |s.dir.channels|);
    assert LaneWork(lane, |s.dir.channels|) < LaneWork(s.lanes[k], |s.dir.channels|);
    hide LanesWork, LaneWork, PushLane, Offer;
  }

  lemma LaneShrinks(cfg: Config, dir: T.State, lane: Lane, work: Work)
    requires T.Frame(dir) && CanWork(cfg, dir, lane, work)
    ensures LaneWork(WorkLane(cfg, dir, lane, work), |dir.channels|) < LaneWork(lane, |dir.channels|)
  {
    if work.Send? {
      SendShrinks(lane, work.req, |dir.channels|);
    } else {
      if work.Begin? {
        ListsAreShort(dir, lane.worker.room);
      }
      hide List, T.Frame;
      var n, lane' := |dir.channels|, WorkLane(cfg, dir, lane, work);
      assert lane'.waiting == lane.waiting;
      assert work.Take? ==> |lane.queue| * (n + 5) == |lane'.queue| * (n + 5) + (n + 5);
    }
  }

  lemma SendShrinks(lane: Lane, req: Req, n: nat)
    requires req in lane.waiting
    ensures LaneWork(lane.(waiting := lane.waiting - multiset{req}, queue := lane.queue + [req],
                           sent := lane.sent + [req]), n)
            < LaneWork(lane, n)
  {
    var w, q := |lane.waiting|, |lane.queue|;
    assert |lane.waiting - multiset{req}| == w - 1;
    assert w * (n + 6) == (w - 1) * (n + 6) + (n + 6) && (q + 1) * (n + 5) == q * (n + 5) + (n + 5);
    hide InHandWork;
  }

  /** As long as not everything is drained, some worker or waiting sender can go on. */
  lemma SomebodyGoesOn(cfg: Config, s: State) returns (step: Step)
    requires cfg.routineSize > 0 && Inv(cfg, s) && !Drained(s)
    ensures OfWorker(step) && Enabled(cfg, s, step)
  {
    hide T.Frame, LaneOk, BoxOk, Distinct;
    var k :| 0 <= k < |s.lanes|
      && !(s.lanes[k].waiting == multiset{} && s.lanes[k].queue == [] && s.lanes[k].worker.Waiting?);
    var lane := s.lanes[k];
    assert WorkerOk(s.dir, lane.worker);
    match lane.worker
    case Waiting =>
      if lane.queue != [] {
        step := OnLane(k, Take);
      } else {
        var req :| req in lane.waiting;
        step := OnLane(k, Send(req));
      }
    case Taken(_) => step := OnLane(k, Look);
    case Found(_, _) => step := OnLane(k, Begin);
    case Pushing(_, room, rest) =>
      if rest == [] {
        step := OnLane(k, Finish);
      } else {
        MembersHaveMail(cfg, s, room, rest[0]);
        step := Push(k);
      }
  }

  /** From every state of every run the workers alone get everything drained, in a bounded number of steps, and without
      a place in any mailbox. */
  lemma {:induction false} DrainedIsReached(cfg: Config, s: State) returns (states: seq<State>, steps: seq<Step>)
    requires cfg.routineSize > 0 && Inv(cfg, s)
    ensures IsRun(cfg, states, steps) && states[0] == s && Drained(states[|steps|])
    ensures |steps| <= ToDo(s) && forall i | 0 <= i < |steps| :: OfWorker(steps[i])
    decreases ToDo(s)
  {
    hide Inv, Next, Enabled, Drained, ToDo, OfWorker;
    if Drained(s) {
      return [s], [];
    }
    var step := SomebodyGoesOn(cfg, s);
    WorkShrinks(cfg, s, step);
    StepKeepsInv(cfg, s, step);
    var more, others := DrainedIsReached(cfg, Next(cfg, s, step));
    states, steps := [s] + more, [step] + others;
    forall i | 0 <= i < |steps|
      ensures Enabled(cfg, states[i], steps[i]) && states[i + 1] == Next(cfg, states[i], steps[i]) && OfWorker(steps[i])
    {
      assert i > 0 ==> states[i] == more[i - 1] && steps[i] == others[i - 1];
    }
    assert states[|steps|] == more[|others|];
  }

  // ---------- owners and callers ----------

  /** BroadcastRoom can be called at any time, and every channel that has been put can be pushed to. */
  lemma CallersNeedNotWait(cfg: Config, s: State, req: Req, c: Chan, msg: nat)
    requires Inv(cfg, s)
    ensures Enabled(cfg, s, Claim(req))
    ensures c in s.dir.channels ==> Enabled(cfg, s, Single(c, msg))
  {
    hide T.Frame, LaneOk, WorkerOk, BoxOk;
  }

  /** The owner of a channel can take out everything that waits, in order, by itself. */
  lemma {:induction false} OwnerTakesAll(cfg: Config, s: State, c: Chan)
    returns (states: seq<State>, steps: seq<Step>)
    requires Inv(cfg, s) && c in s.mail
    ensures IsRun(cfg, states, steps) && states[0] == s && |steps| == |s.mail[c].queue|
    ensures forall i | 0 <= i < |steps| :: steps[i] == Consume(c)
    ensures c in states[|steps|].mail
         && states[|steps|].mail[c] == s.mail[c].(queue := [], consumed := s.mail[c].consumed + s.mail[c].queue)
    decreases |s.mail[c].queue|
  {
    var box := s.mail[c];
    if box.queue == [] {
      assert box.consumed + [] == box.consumed;
      return [s], [];
    }
    var next := Next(cfg, s, Consume(c));
    StepKeepsInv(cfg, s, Consume(c));
    var more, others := OwnerTakesAll(cfg, next, c);
    states, steps := [s] + more, [Consume(c)] + others;
    assert box.consumed + box.queue == box.consumed + [box.queue[0]] + box.queue[1..];
    hide Inv;
    forall i | 0 <= i < |steps|
      ensures Enabled(cfg, states[i], steps[i]) && states[i + 1] == Next(cfg, states[i], steps[i])
      ensures steps[i] == Consume(c)
    {
      assert i > 0 ==> states[i] == more[i - 1] && steps[i] == others[i - 1];
      hide Next, Enabled;
    }
    assert states[|steps|] == more[|others|];
  }
}
