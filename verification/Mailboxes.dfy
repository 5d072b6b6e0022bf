/** What the bounded mailboxes of Broadcast keep of the pushes that reach them, told from the steps of the run. */
module Mailboxes {
  import opened Broadcast
  import opened Collections
  import T = TwoPhasePut

  /** The channel is the next one on the worker's walk. */
  predicate CanReach(w: Worker, c: Chan) {
    w.Pushing? && w.rest != [] && w.rest[0] == c
  }

  /** What a step pushes to a channel: a worker the request it is walking with, a message to the user itself. */
  function PushedNow(s: State, step: Step, c: Chan): seq<Arrival> {
    match step
    case Push(k) =>
      if k < |s.lanes| && CanReach(s.lanes[k].worker, c)
      then [OfRoom(k, s.lanes[k].worker.req)] else []
    case Single(d, msg) => if d == c then [OfUser(msg)] else []
    case _ => []
  }

  /** That, if fewer messages are waiting for the channel than its mailbox holds. */
  function PlacedNow(cfg: Config, s: State, step: Step, c: Chan): seq<Arrival> {
    if c in s.mail && |s.mail[c].queue| < cfg.mailboxSize then PushedNow(s, step, c) else []
  }

  function PushedIn(states: seq<State>, steps: seq<Step>, i: nat, k: nat, c: Chan): seq<Arrival>
    requires i <= k <= |steps| && |states| == |steps| + 1
  {
    if i == k then []
    else PushedIn(states, steps, i, k - 1, c) + PushedNow(states[k - 1], steps[k - 1], c)
  }

  function PlacedIn(cfg: Config, states: seq<State>, steps: seq<Step>, i: nat, k: nat, c: Chan): seq<Arrival>
    requires i <= k <= |steps| && |states| == |steps| + 1
  {
    if i == k then []
    else PlacedIn(cfg, states, steps, i, k - 1, c) + PlacedNow(cfg, states[k - 1], steps[k - 1], c)
  }

  /** What the channel has been given: taken out by its owner already, or still waiting. */
  function Kept(box: Mailbox): seq<Arrival> { box.consumed + box.queue }

  /** One push, with the mailbox before and after. */
  ghost predicate Fills(cfg: Config, box: Mailbox, pushed: seq<Arrival>, box': Mailbox) {
    && box'.arrivals == box.arrivals + pushed && box'.consumed == box.consumed
    && (|box.queue| < cfg.mailboxSize ==> box'.queue == box.queue + pushed && box'.dropped == box.dropped)
    && (|box.queue| >= cfg.mailboxSize ==> box'.queue == box.queue && box'.dropped == box.dropped + |pushed|)
  }

  lemma PushFills(cfg: Config, s: State, step: Step, c: Chan)
    requires Enabled(cfg, s, step) && c in s.mail && (step.Push? || step.Single?)
    ensures c in Next(cfg, s, step).mail && Fills(cfg, s.mail[c], PushedNow(s, step, c), Next(cfg, s, step).mail[c])
  {
    var box := s.mail[c];
    assert box.arrivals + [] == box.arrivals && box.queue + [] == box.queue;
  }

  /** A push to a full mailbox changes nothing in it; any other push is put behind what is waiting; and the owner
      takes out what has waited longest. */
  lemma StepFillsMailbox(cfg: Config, s: State, step: Step, c: Chan)
    requires Inv(cfg, s) && Enabled(cfg, s, step) && c in s.dir.channels
    ensures c in s.mail && c in Next(cfg, s, step).mail
    ensures var box, box', pushed := s.mail[c], Next(cfg, s, step).mail[c], PushedNow(s, step, c);
            && box'.arrivals == box.arrivals + pushed
            && Kept(box') == Kept(box) + PlacedNow(cfg, s, step, c)
            && (|box.queue| == cfg.mailboxSize && pushed != [] ==> box'.queue == box.queue)
            && box'.consumed == box.consumed + (if step == Consume(c) then box.queue[..1] else [])
            && box'.dropped == box.dropped + |pushed| - |PlacedNow(cfg, s, step, c)|
  {
    assert BoxOk(cfg, s.mail[c]);
    var box := s.mail[c];
    if step.Push? || step.Single? {
      PushFills(cfg, s, step, c);
      Assoc(box.consumed, box.queue, PushedNow(s, step, c));
      assert Kept(box) + [] == Kept(box);
      hide Inv, Next, Enabled, PushedNow, BoxOk;
    } else {
      assert PushedNow(s, step, c) == [] && PlacedNow(cfg, s, step, c) == [];
      assert Kept(box) + [] == Kept(box) && box.arrivals + [] == box.arrivals && box.consumed + [] == box.consumed;
      if step == Consume(c) {
        assert box.queue == [box.queue[0]] + box.queue[1..];
      }
      hide Inv, BoxOk, Slot, Bump, WorkLane, T.Next, PushedNow, PlacedNow;
    }
  }

  lemma ChannelStays(cfg: Config, s: State, step: Step, c: Chan)
    requires Inv(cfg, s) && Enabled(cfg, s, step) && c in s.dir.channels
    ensures c in Next(cfg, s, step).dir.channels
  {
    if step.Member? {
      ChannelsGrow(s.dir, step.step);
    }
    hide T.Frame, LaneOk, WorkerOk, BoxOk, Slot, Bump, WorkLane, T.Next, Offer;
  }

  /** For every schedule, any two moments and any channel: what has been given to the channel at the first moment comes
      first at the second one, and is followed, in order, by exactly the pushes in between that found a place; the
      others are dropped. */
  lemma {:induction false} MailboxGrows(cfg: Config, states: seq<State>, steps: seq<Step>, i: nat, k: nat, c: Chan)
    requires IsRun(cfg, states, steps) && Inv(cfg, states[0]) && i <= k <= |steps| && c in states[i].dir.channels
    ensures c in states[i].mail && c in states[k].mail && c in states[k].dir.channels
    ensures var box, box' := states[i].mail[c], states[k].mail[c];
            var pushed, placed := PushedIn(states, steps, i, k, c), PlacedIn(cfg, states, steps, i, k, c);
            && Kept(box') == Kept(box) + placed && Kept(box) <= Kept(box')
            && box'.arrivals == box.arrivals + pushed
            && box'.dropped == box.dropped + |pushed| - |placed|
  {
    hide Inv, Next, Enabled, PushedNow, PlacedNow, Kept;
    RunKeepsInv(cfg, states, steps, i);
    HasMailbox(cfg, states[i], c);
    var box := states[i].mail[c];
    if i == k {
      assert Kept(box) + [] == Kept(box) && box.arrivals + [] == box.arrivals;
    } else {
      var s, step := states[k - 1], steps[k - 1];
      MailboxGrows(cfg, states, steps, i, k - 1, c);
      RunKeepsInv(cfg, states, steps, k - 1);
      StepFillsMailbox(cfg, s, step, c);
      ChannelStays(cfg, s, step, c);
      Assoc(Kept(box), PlacedIn(cfg, states, steps, i, k - 1, c), PlacedNow(cfg, s, step, c));
      Assoc(box.arrivals, PushedIn(states, steps, i, k - 1, c), PushedNow(s, step, c));
    }
  }

  lemma HasMailbox(cfg: Config, s: State, c: Chan)
    requires Inv(cfg, s) && c in s.dir.channels
    ensures c in s.mail
  {
  }

  /** No push in between finds the mailbox full. */
  ghost predicate NeverFull(cfg: Config, states: seq<State>, steps: seq<Step>, i: nat, k: nat, c: Chan)
    requires k <= |steps| && |states| == |steps| + 1
  {
    forall t | i <= t < k && PushedNow(states[t], steps[t], c) != [] ::
      c in states[t].mail && |states[t].mail[c].queue| < cfg.mailboxSize
  }

  /** All the pushes in between are given to the channel if and only if none of them finds its mailbox full. */
  lemma {:induction false} AllPlacedExactly(cfg: Config, states: seq<State>, steps: seq<Step>, i: nat, k: nat, c: Chan)
    requires i <= k <= |steps| && |states| == |steps| + 1
    ensures |PlacedIn(cfg, states, steps, i, k, c)| <= |PushedIn(states, steps, i, k, c)|
    ensures PlacedIn(cfg, states, steps, i, k, c) == PushedIn(states, steps, i, k, c)
       <==> NeverFull(cfg, states, steps, i, k, c)
  {
    hide PushedNow;
    if i < k {
      AllPlacedExactly(cfg, states, steps, i, k - 1, c);
      NeverFullStep(cfg, states, steps, i, k, c);
      hide NeverFull;
      SamePrefix(PlacedIn(cfg, states, steps, i, k - 1, c), PlacedNow(cfg, states[k - 1], steps[k - 1], c),
                 PushedIn(states, steps, i, k - 1, c), PushedNow(states[k - 1], steps[k - 1], c));
    }
  }

  lemma NeverFullStep(cfg: Config, states: seq<State>, steps: seq<Step>, i: nat, k: nat, c: Chan)
    requires i < k <= |steps| && |states| == |steps| + 1
    ensures NeverFull(cfg, states, steps, i, k, c)
       <==> && NeverFull(cfg, states, steps, i, k - 1, c)
            && PlacedNow(cfg, states[k - 1], steps[k - 1], c) == PushedNow(states[k - 1], steps[k - 1], c)
    ensures |PlacedNow(cfg, states[k - 1], steps[k - 1], c)| <= |PushedNow(states[k - 1], steps[k - 1], c)|
  {
    hide PushedNow;
  }

  lemma SamePrefix(a: seq<Arrival>, b: seq<Arrival>, a': seq<Arrival>, b': seq<Arrival>)
    requires |a| <= |a'| && |b| <= |b'|
    ensures a + b == a' + b' <==> a == a' && b == b'
  {
    if a + b == a' + b' {
      assert (a + b)[..|a|] == a && (a' + b')[..|a'|] == a';
      assert (a + b)[|a|..] == b && (a' + b')[|a'|..] == b';
    }
  }

  lemma {:induction false} ByWorkerConcat(a: seq<Arrival>, b: seq<Arrival>, k: nat)
    ensures ByWorker(a + b, k) == ByWorker(a, k) + ByWorker(b, k)
  {
    if b == [] {
      assert a + b == a && ByWorker(a, k) + [] == ByWorker(a, k);
    } else {
      var last := |b| - 1;
      ByWorkerConcat(a, b[..last], k);
      assert (a + b)[..|a| + last] == a + b[..last];
      Assoc(ByWorker(a, k), ByWorker(b[..last], k), FromWorker(b[last], k));
    }
  }

  /** Between two drained moments a member of a room is given each request that was sent to a worker for the room's id
      exactly once and in order, if no lookup of that worker missed the room and no push found the mailbox full. */
  lemma MemberIsGiven(cfg: Config, states: seq<State>, steps: seq<Step>, i: nat, j: nat, room: Ref, c: Chan, k: nat)
    requires IsRun(cfg, states, steps) && Inv(cfg, states[0]) && i <= j <= |steps| && k < |states[i].lanes|
    requires Drained(states[i]) && Drained(states[j])
    requires c in List(states[i].dir, room) && c in List(states[j].dir, room)
    requires NeverMisses(states, steps, i, j, k, room) && NeverFull(cfg, states, steps, i, j, c)
    ensures |states[j].lanes| == |states[i].lanes| && states[i].lanes[k].sent <= states[j].lanes[k].sent
    ensures room in states[i].dir.objects && c in states[i].mail && c in states[j].mail
    ensures var sent := states[j].lanes[k].sent[|states[i].lanes[k].sent|..];
            ByWorker(Kept(states[j].mail[c]), k)
            == ByWorker(Kept(states[i].mail[c]), k) + Only(sent, states[i].dir.objects[room].id)
  {
    hide Inv, Drained, NeverMisses, NeverFull, PushedIn, PlacedIn, ByWorker, Only, Kept;
    RunKeepsInv(cfg, states, steps, i);
    MembersHaveMail(cfg, states[i], room, c);
    MemberReceivesExactlyOnce(cfg, states, steps, i, j, room, c, k);
    MailboxGrows(cfg, states, steps, i, j, c);
    AllPlacedExactly(cfg, states, steps, i, j, c);
    hide IsRun, List;
    var box, box', pushed := states[i].mail[c], states[j].mail[c], PushedIn(states, steps, i, j, c);
    ByWorkerConcat(Kept(box), pushed, k);
    ByWorkerConcat(box.arrivals, pushed, k);
    var sent := states[j].lanes[k].sent[|states[i].lanes[k].sent|..];
    CancelPrefix(ByWorker(box.arrivals, k), ByWorker(pushed, k), Only(sent, states[i].dir.objects[room].id));
  }
}
