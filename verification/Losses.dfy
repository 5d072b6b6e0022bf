/** What becomes of a message to one user, told from the steps of a run of Delivery: where it is sent, in which order
    messages travel, and exactly when one is lost. */
module Losses {
  import opened Options
  import opened Delivery

  // ---------- the routes, told from the steps ----------

  /** The user key at the moment before step i: what the last SetKey made of it. */
  function KeyBy(start: Routes, steps: seq<Step>, i: nat, u: int): string
    requires i <= |steps|
  {
    if i == 0 then KeyOf(start, u)
    else match steps[i - 1]
      case SetKey(v, key) =>
        if v != u then KeyBy(start, steps, i - 1, u) else if key.Some? then key.value else ""
      case _ => KeyBy(start, steps, i - 1, u)
  }

  /** The channel that the last Attach of the user on the server has attached, if no Detach of the user came later. */
  function FoundBy(states: seq<State>, steps: seq<Step>, i: nat, serverId: string, u: int): Option<Chan>
    requires i <= |steps| && |states| == |steps| + 1
  {
    if i == 0 then None
    else match steps[i - 1]
      case Attach(id, v, c) =>
        if id != serverId || v != u then FoundBy(states, steps, i - 1, serverId, u)
        else if c < |states[i - 1].mail| then Some(c) else Some(|states[i - 1].mail|)
      case Detach(id, v) =>
        if id != serverId || v != u then FoundBy(states, steps, i - 1, serverId, u) else None
      case _ => FoundBy(states, steps, i - 1, serverId, u)
  }

  /** The number of calls of Push in the first i steps. */
  function Reads(steps: seq<Step>, i: nat): nat
    requires i <= |steps|
  {
    if i == 0 then 0 else Reads(steps, i - 1) + if steps[i - 1].Read? then 1 else 0
  }

  lemma KeyStep(cfg: Config, s: State, step: Step, u: int)
    requires Enabled(cfg, s, step)
    ensures KeyOf(Next(cfg, s, step).routes, u)
         == if step.SetKey? && step.u == u then (if step.key.Some? then step.key.value else "") else KeyOf(s.routes, u)
  {
    if step.Call? {
      CallKeepsRoutes(cfg, s, step.k);
    } else if step.Offer? {
      OfferKeepsRoutes(cfg, s, step.k);
    }
    hide Called, Offered, Attached, Users;
    if step.Attach? {
      AttachKeepsKeys(s, step.serverId, step.u, step.c);
    }
  }

  lemma AttachKeepsKeys(s: State, serverId: string, u: int, c: Chan)
    ensures Attached(s, serverId, u, c).routes.keys == s.routes.keys
  {
  }

  lemma FoundStep(cfg: Config, s: State, step: Step, serverId: string, u: int)
    requires Enabled(cfg, s, step)
    ensures ChannelOf(Next(cfg, s, step).routes, serverId, u)
         == if step.Attach? && step.serverId == serverId && step.u == u
              then Some(if step.c < |s.mail| then step.c else |s.mail|)
            else if step == Detach(serverId, u) then None
            else ChannelOf(s.routes, serverId, u)
  {
    if !step.Attach? && !step.Detach? {
      IndexUntouched(cfg, s, step);
      hide Next;
    }
  }

  /** In every run user keys, channels and the numbers of the calls are what the steps made of them. */
  lemma {:induction false} RoutesTold(cfg: Config, states: seq<State>, steps: seq<Step>, i: nat,
                                      serverId: string, u: int)
    requires IsRun(cfg, states, steps) && i <= |steps|
    ensures KeyOf(states[i].routes, u) == KeyBy(states[0].routes, steps, i, u)
    ensures ChannelOf(states[i].routes, serverId, u) == FoundBy(states, steps, i, serverId, u)
    ensures states[i].routes.pushes == Reads(steps, i)
  {
    if i > 0 {
      RoutesTold(cfg, states, steps, i - 1, serverId, u);
      KeyStep(cfg, states[i - 1], steps[i - 1], u);
      FoundStep(cfg, states[i - 1], steps[i - 1], serverId, u);
      PushesCount(cfg, states[i - 1], steps[i - 1]);
      hide Next, Enabled, ChannelOf, KeyOf;
    }
  }

  /** The message of the i-th step, if that is a call of Push: its number, its user and body, and the server of the
      user key at that moment. */
  lemma PushTold(cfg: Config, states: seq<State>, steps: seq<Step>, i: nat, x: Item)
    requires IsRun(cfg, states, steps) && i < |steps|
    ensures ReadIn(states, steps, i, x)
       <==> steps[i] == Read(x.toUser, x.body) && x.id == Reads(steps, i)
            && x.serverId == KeyBy(states[0].routes, steps, i, x.toUser)
  {
    RoutesTold(cfg, states, steps, i, "", x.toUser);
    hide IsRun, KeyBy, FoundBy;
  }

  // ---------- when is a message lost? ----------

  /** A worker calls for x, and the task server does not know the server, or the user has no channel there: none has
      been attached since the last Detach. */
  predicate CallFails(cfg: Config, states: seq<State>, steps: seq<Step>, i: nat, x: Item)
    requires i < |steps| && |states| == |steps| + 1
  {
    && Calls(states[i], steps[i], x)
    && (x.serverId !in cfg.clients || FoundBy(states, steps, i, x.serverId, x.toUser) == None)
  }

  /** x is offered to a channel whose mailbox is full. */
  predicate FindsFull(cfg: Config, s: State, step: Step, x: Item) {
    && step.Offer? && step.k < |s.lanes| && s.lanes[step.k].worker.Found? && s.lanes[step.k].worker.item == x
    && s.lanes[step.k].worker.c < |s.mail| && |s.mail[s.lanes[step.k].worker.c].queue| >= cfg.mailboxSize
  }

  lemma LostNow(cfg: Config, s: State, step: Step, x: Item)
    requires Enabled(cfg, s, step)
    ensures x in Next(cfg, s, step).lost
       <==> || x in s.lost
            || (Calls(s, step, x) && (x.serverId !in cfg.clients || ChannelOf(s.routes, x.serverId, x.toUser) == None))
            || FindsFull(cfg, s, step, x)
  {
    hide Users, KeyOf, ChannelOf, NewItem, Attached;
    if step.Attach? {
      AttachLosesNothing(s, step.serverId, step.u, step.c);
    }
  }

  lemma AttachLosesNothing(s: State, serverId: string, u: int, c: Chan)
    ensures Attached(s, serverId, u, c).lost == s.lost
  {
  }

  /** In every run a message is lost if and only if it was called for a server that the task server does not know, or
      when its user had no channel there, or was offered to a full mailbox. */
  lemma {:induction false} LostExactly(cfg: Config, states: seq<State>, steps: seq<Step>, k: nat, x: Item)
    requires IsRun(cfg, states, steps) && k <= |steps|
    ensures x in states[k].lost
       <==> exists i | 0 <= i < k :: CallFails(cfg, states, steps, i, x) || FindsFull(cfg, states[i], steps[i], x)
  {
    if k > 0 {
      LostExactly(cfg, states, steps, k - 1, x);
      RoutesTold(cfg, states, steps, k - 1, x.serverId, x.toUser);
      LostNow(cfg, states[k - 1], steps[k - 1], x);
      hide Next, Enabled, Start, FindsFull, Calls, FoundBy, ChannelOf;
      assert CallFails(cfg, states, steps, k - 1, x) || FindsFull(cfg, states[k - 1], steps[k - 1], x)
        <==> || (Calls(states[k - 1], steps[k - 1], x)
                 && (x.serverId !in cfg.clients || ChannelOf(states[k - 1].routes, x.serverId, x.toUser) == None))
             || FindsFull(cfg, states[k - 1], steps[k - 1], x);
      hide CallFails;
    }
  }

  // ---------- where do the others go? ----------

  /** A worker has called for x, and found c: the channel that the user had there then. */
  predicate LedNow(states: seq<State>, steps: seq<Step>, i: nat, x: Item, c: Chan)
    requires i < |steps| && |states| == |steps| + 1
  {
    Calls(states[i], steps[i], x) && FoundBy(states, steps, i, x.serverId, x.toUser) == Some(c)
  }

  ghost predicate Led(states: seq<State>, steps: seq<Step>, k: nat, x: Item, c: Chan)
    requires k <= |steps| && |states| == |steps| + 1
  {
    exists i | 0 <= i < k :: LedNow(states, steps, i, x, c)
  }

  predicate Holds(box: Mailbox, x: Item) { x in box.queue || x in box.consumed }

  /** x is on its way to c, or there. */
  predicate At(s: State, x: Item, c: Chan) {
    || (exists k | 0 <= k < |s.lanes| :: s.lanes[k].worker == Worker.Found(x, c))
    || (c < |s.mail| && Holds(s.mail[c], x))
  }

  lemma LaneLeads(cfg: Config, s: State, step: Step, k: nat, x: Item, c: Chan)
    requires Enabled(cfg, s, step) && k < |Next(cfg, s, step).lanes|
    requires Next(cfg, s, step).lanes[k].worker == Worker.Found(x, c)
    ensures At(s, x, c) || (Calls(s, step, x) && ChannelOf(s.routes, x.serverId, x.toUser) == Some(c))
  {
    LanesStay(cfg, s, step);
    hide Users, KeyOf, ChannelOf, NewItem, Holds, Attached, Offered;
    if s.lanes[k].worker == Worker.Found(x, c) {
      assert At(s, x, c);
    } else if step.Attach? {
      AttachKeepsLanes(s, step.serverId, step.u, step.c);
    } else if step.Offer? {
      OfferFindsNothing(cfg, s, step.k, k);
    }
  }

  lemma OfferFindsNothing(cfg: Config, s: State, j: nat, k: nat)
    requires j < |s.lanes| && s.lanes[j].worker.Found? && s.lanes[j].worker.c < |s.mail| && k < |s.lanes|
    ensures |Offered(cfg, s, j).lanes| == |s.lanes|
    ensures Offered(cfg, s, j).lanes[k].worker == if j == k then Waiting else s.lanes[k].worker
  {
  }

  lemma AttachKeepsLanes(s: State, serverId: string, u: int, c: Chan)
    ensures Attached(s, serverId, u, c).lanes == s.lanes && Attached(s, serverId, u, c).published == s.published
  {
  }

  lemma BoxLeads(cfg: Config, s: State, step: Step, x: Item, c: Chan)
    requires Enabled(cfg, s, step) && c < |Next(cfg, s, step).mail| && Holds(Next(cfg, s, step).mail[c], x)
    ensures At(s, x, c)
  {
    if step.Offer? && s.lanes[step.k].worker == Worker.Found(x, c) {
      assert At(s, x, c);
    }
    hide Users, KeyOf, ChannelOf, NewItem;
  }

  lemma {:induction false} RunLeads(cfg: Config, states: seq<State>, steps: seq<Step>, k: nat, x: Item, c: Chan)
    requires IsRun(cfg, states, steps) && k <= |steps| && At(states[k], x, c)
    ensures Led(states, steps, k, x, c)
  {
    hide FoundBy;
    if k > 0 {
      var s, step := states[k - 1], steps[k - 1];
      RoutesTold(cfg, states, steps, k - 1, x.serverId, x.toUser);
      if c < |states[k].mail| && Holds(states[k].mail[c], x) {
        BoxLeads(cfg, s, step, x, c);
      } else {
        var j :| 0 <= j < |states[k].lanes| && states[k].lanes[j].worker == Worker.Found(x, c);
        LaneLeads(cfg, s, step, j, x, c);
      }
      hide At, Next, Enabled, Calls, Holds;
      if At(s, x, c) {
        RunLeads(cfg, states, steps, k - 1, x, c);
      } else {
        assert LedNow(states, steps, k - 1, x, c);
      }
      hide IsRun;
    }
  }

  /** When nothing is under way any more, every message that was pushed and has not been lost has reached, once, the
      channel that its user had on its server when it was called for. */
  lemma ReachedUnlessLost(cfg: Config, states: seq<State>, steps: seq<Step>, k: nat, x: Item)
    requires IsRun(cfg, states, steps) && k <= |steps| && Drained(states[k]) && Pushed(states, steps, k, x)
    ensures x !in states[k].lost
       <==> exists c | 0 <= c < |states[k].mail| ::
              InMailbox(states[k].mail[c], x) == 1 && Led(states, steps, k, x, c)
  {
    var s := states[k];
    RunConserves(cfg, states, steps, k, x);
    EmptyLanes(s.lanes, x);
    if x !in s.lost {
      InSomeMailbox(s.mail, x);
      var c :| 0 <= c < |s.mail| && InMailbox(s.mail[c], x) > 0;
      TwoMailboxes(s.mail, c, c, x);
      assert Holds(s.mail[c], x);
      RunLeads(cfg, states, steps, k, x, c);
    } else {
      forall c | 0 <= c < |s.mail|
        ensures InMailbox(s.mail[c], x) == 0
      {
        TwoMailboxes(s.mail, c, c, x);
      }
    }
    hide IsRun, Pushed, Led, InMail, InLanes;
  }

  // ---------- in which order do messages travel? ----------

  /** The messages published in the first k steps, in order; and how many of them have been handed to queues. */
  function Publications(steps: seq<Step>, k: nat): seq<Item>
    requires k <= |steps|
  {
    if k == 0 then [] else Publications(steps, k - 1) + if steps[k - 1].Publish? then [steps[k - 1].item] else []
  }

  function Dispatches(steps: seq<Step>, k: nat): nat
    requires k <= |steps|
  {
    if k == 0 then 0 else Dispatches(steps, k - 1) + if steps[k - 1].Dispatch? then 1 else 0
  }

  /** The messages handed to queue j: those whose turn to be handed on came in a step that chose j. */
  function Handed(steps: seq<Step>, k: nat, j: nat): seq<Item>
    requires k <= |steps|
  {
    if k == 0 then []
    else
      var n, published := Dispatches(steps, k - 1), Publications(steps, k - 1);
      Handed(steps, k - 1, j) + if steps[k - 1] == Dispatch(j) && n < |published| then [published[n]] else []
  }

  /** How many of them the worker has taken. */
  function Takes(steps: seq<Step>, k: nat, j: nat): nat
    requires k <= |steps|
  {
    if k == 0 then 0 else Takes(steps, k - 1, j) + if steps[k - 1] == Take(j) then 1 else 0
  }

  /** What a step does to the queues. */
  lemma QueueStep(cfg: Config, s: State, step: Step, j: nat)
    requires Enabled(cfg, s, step) && j < |s.lanes|
    ensures var s' := Next(cfg, s, step);
            && |s'.lanes| == |s.lanes|
            && s'.published == (if step.Dispatch? then s.published[1..] else s.published)
                                + (if step.Publish? then [step.item] else [])
            && s'.lanes[j].queue == (if step == Take(j) then s.lanes[j].queue[1..] else s.lanes[j].queue)
                                    + (if step == Dispatch(j) then [s.published[0]] else [])
  {
    if step.Publish? || step.Dispatch? || step.Take? {
      assert s.published + [] == s.published && s.lanes[j].queue + [] == s.lanes[j].queue;
      assert step.Dispatch? ==> s.published[1..] + [] == s.published[1..];
      assert step == Take(j) ==> s.lanes[j].queue[1..] + [] == s.lanes[j].queue[1..];
    } else {
      OthersKeepQueues(cfg, s, step, j);
      assert s.published + [] == s.published && s.lanes[j].queue + [] == s.lanes[j].queue;
      hide Next, Enabled;
    }
  }

  lemma OthersKeepQueues(cfg: Config, s: State, step: Step, j: nat)
    requires Enabled(cfg, s, step) && j < |s.lanes| && !step.Publish? && !step.Dispatch? && !step.Take?
    ensures var s' := Next(cfg, s, step);
            |s'.lanes| == |s.lanes| && s'.published == s.published && s'.lanes[j].queue == s.lanes[j].queue
  {
    hide Users, KeyOf, ChannelOf, NewItem, Attached;
    if step.Attach? {
      AttachKeepsLanes(s, step.serverId, step.u, step.c);
    }
  }

  ghost predicate InOrder(s: State, steps: seq<Step>, k: nat, j: nat)
    requires k <= |steps|
  {
    && j < |s.lanes|
    && Dispatches(steps, k) <= |Publications(steps, k)|
    && s.published == Publications(steps, k)[Dispatches(steps, k)..]
    && Takes(steps, k, j) <= |Handed(steps, k, j)|
    && s.lanes[j].queue == Handed(steps, k, j)[Takes(steps, k, j)..]
  }

  lemma RestAppend(a: seq<Item>, n: nat, b: seq<Item>)
    requires n <= |a|
    ensures (a + b)[n..] == a[n..] + b
    ensures n < |a| ==> a[n..][0] == a[n] && a[n..][1..] == a[n + 1..]
  {
  }

  /** Messages are handed on in the order in which they were published, and the worker of a queue takes them in the
      order in which they were handed to it. */
  lemma {:induction false} TravelInOrder(cfg: Config, states: seq<State>, steps: seq<Step>, k: nat, j: nat)
    requires IsRun(cfg, states, steps) && k <= |steps| && j < |states[0].lanes|
    ensures |states[k].lanes| == |states[0].lanes| && InOrder(states[k], steps, k, j)
  {
    if k > 0 {
      TravelInOrder(cfg, states, steps, k - 1, j);
      QueueStep(cfg, states[k - 1], steps[k - 1], j);
      OrderStep(cfg, states[k - 1], steps, k, j, states[k]);
      hide Next, Enabled, InOrder;
    }
  }

  lemma OrderStep(cfg: Config, s: State, steps: seq<Step>, k: nat, j: nat, s': State)
    requires 0 < k <= |steps| && Enabled(cfg, s, steps[k - 1]) && InOrder(s, steps, k - 1, j)
    requires s' == Next(cfg, s, steps[k - 1])
    ensures InOrder(s', steps, k, j)
  {
    var step := steps[k - 1];
    QueueStep(cfg, s, step, j);
    StepTakesSome(cfg, s, step, j);
    hide Next, Enabled;
    var published, n, handed, m :=
      Publications(steps, k - 1), Dispatches(steps, k - 1), Handed(steps, k - 1, j), Takes(steps, k - 1, j);
    var more, on := if step.Publish? then [step.item] else [], if step == Dispatch(j) then [s.published[0]] else [];
    assert Publications(steps, k) == published + more && (n < |published| ==> s.published[0] == published[n]);
    assert Handed(steps, k, j) == handed + on;
    hide Publications, Handed;
    RestAppend(published, n, more);
    RestAppend(handed, m, on);
  }

  lemma StepTakesSome(cfg: Config, s: State, step: Step, j: nat)
    requires Enabled(cfg, s, step) && j < |s.lanes|
    ensures step.Dispatch? ==> s.published != []
    ensures step == Take(j) ==> s.lanes[j].queue != []
  {
  }

  /** What a step puts into a mailbox. */
  function PlacedNow(cfg: Config, s: State, step: Step, c: Chan): seq<Item> {
    match step
    case Offer(k) =>
      if k < |s.lanes| && s.lanes[k].worker.Found? && s.lanes[k].worker.c == c
         && c < |s.mail| && |s.mail[c].queue| < cfg.mailboxSize
      then [s.lanes[k].worker.item] else []
    case _ => []
  }

  function PlacedIn(cfg: Config, states: seq<State>, steps: seq<Step>, i: nat, k: nat, c: Chan): seq<Item>
    requires i <= k <= |steps| && |states| == |steps| + 1
  {
    if i == k then []
    else PlacedIn(cfg, states, steps, i, k - 1, c) + PlacedNow(cfg, states[k - 1], steps[k - 1], c)
  }

  /** What has been put into a mailbox, taken out already or not. */
  function Kept(box: Mailbox): seq<Item> { box.consumed + box.queue }

  lemma BoxStep(cfg: Config, s: State, step: Step, c: Chan)
    requires Enabled(cfg, s, step) && c < |s.mail|
    ensures c < |Next(cfg, s, step).mail|
    ensures var box, box' := s.mail[c], Next(cfg, s, step).mail[c];
            && Kept(box') == Kept(box) + PlacedNow(cfg, s, step, c)
            && box'.consumed == box.consumed + if step == Consume(c) then [box.queue[0]] else []
  {
    var box := s.mail[c];
    assert box.consumed + [] == box.consumed && Kept(box) + [] == Kept(box);
    if step == Consume(c) {
      assert box.queue == [box.queue[0]] + box.queue[1..];
    }
    hide Users, KeyOf, ChannelOf, NewItem;
  }

  /** For every run, any two moments and any mailbox: what has been put into it stays first and is followed, in order,
      by exactly the messages that were offered in between while it was not full. */
  lemma {:induction false} MailboxGrows(cfg: Config, states: seq<State>, steps: seq<Step>, i: nat, k: nat, c: Chan)
    requires IsRun(cfg, states, steps) && i <= k <= |steps| && c < |states[i].mail|
    ensures c < |states[k].mail|
    ensures Kept(states[k].mail[c]) == Kept(states[i].mail[c]) + PlacedIn(cfg, states, steps, i, k, c)
  {
    hide Next, Enabled, PlacedNow, Kept, Start;
    if i == k {
      assert Kept(states[i].mail[c]) + [] == Kept(states[i].mail[c]);
    } else {
      MailboxGrows(cfg, states, steps, i, k - 1, c);
      BoxStep(cfg, states[k - 1], steps[k - 1], c);
    }
  }

  // ---------- does every message get somewhere? ----------

  /** A step of a Push that has read its key, of the task server, or of an owner who takes a message out. */
  predicate OnTheWay(step: Step) {
    step.Publish? || step.Dispatch? || step.Take? || step.Call? || step.Offer? || step.Consume?
  }

  /** Nothing is under way any more, or the task server has stopped; and the owners have taken everything out. */
  ghost predicate Finished(s: State) {
    (Drained(s) || !s.running) && forall c | 0 <= c < |s.mail| :: s.mail[c].queue == []
  }

  /** How many such steps may still be made. */
  function LaneToDo(lane: Lane): nat {
    4 * |lane.queue| + match lane.worker case Waiting => 0 case Calling(_) => 3 case Found(_, _) => 2
  }

  function LanesToDo(lanes: seq<Lane>): nat {
    if lanes == [] then 0 else LanesToDo(lanes[..|lanes| - 1]) + LaneToDo(lanes[|lanes| - 1])
  }

  function MailToDo(mail: seq<Mailbox>): nat {
    if mail == [] then 0 else MailToDo(mail[..|mail| - 1]) + |mail[|mail| - 1].queue|
  }

  function ToDo(s: State): nat { 6 * |s.read| + 5 * |s.published| + LanesToDo(s.lanes) + MailToDo(s.mail) }

  lemma {:induction false} ToDoUpdate(lanes: seq<Lane>, k: nat, lane: Lane)
    requires k < |lanes|
    ensures LanesToDo(lanes[k := lane]) == LanesToDo(lanes) + LaneToDo(lane) - LaneToDo(lanes[k])
  {
    var last := |lanes| - 1;
    var lanes' := lanes[k := lane];
    hide LaneToDo;
    if k == last {
      assert lanes'[..last] == lanes[..last];
    } else {
      ToDoUpdate(lanes[..last], k, lane);
      assert lanes'[..last] == lanes[..last][k := lane];
    }
  }

  lemma {:induction false} MailToDoUpdate(mail: seq<Mailbox>, c: nat, box: Mailbox)
    requires c < |mail|
    ensures MailToDo(mail[c := box]) == MailToDo(mail) + |box.queue| - |mail[c].queue|
  {
    var last := |mail| - 1;
    var mail' := mail[c := box];
    if c == last {
      assert mail'[..last] == mail[..last];
    } else {
      MailToDoUpdate(mail[..last], c, box);
      assert mail'[..last] == mail[..last][c := box];
    }
  }

  lemma ToDoShrinks(cfg: Config, s: State, step: Step)
    requires Enabled(cfg, s, step) && OnTheWay(step)
    ensures ToDo(Next(cfg, s, step)) < ToDo(s)
  {
    var s' := Next(cfg, s, step);
    if step.Publish? {
      assert |s.read - multiset{step.item}| == |s.read| - 1;
    } else if step.Consume? {
      MailToDoUpdate(s.mail, step.c, s'.mail[step.c]);
    } else if step.Offer? {
      OfferShrinks(cfg, s, step.k);
    } else {
      assert s'.lanes == s.lanes[step.k := s'.lanes[step.k]];
      ToDoUpdate(s.lanes, step.k, s'.lanes[step.k]);
    }
    hide LanesToDo, MailToDo, ChannelOf, Offered;
  }

  lemma OfferShrinks(cfg: Config, s: State, k: nat)
    requires Enabled(cfg, s, Offer(k))
    ensures ToDo(Offered(cfg, s, k)) < ToDo(s)
  {
    var s', c := Offered(cfg, s, k), s.lanes[k].worker.c;
    ToDoUpdate(s.lanes, k, s'.lanes[k]);
    MailToDoUpdate(s.mail, c, s'.mail[c]);
    hide LanesToDo, MailToDo;
    assert s'.mail == s.mail[c := s'.mail[c]];
  }

  lemma SomebodyGoesOn(cfg: Config, s: State) returns (step: Step)
    requires Addressed(s) && !Finished(s) && s.lanes != [] && cfg.pushChanSize > 0
    ensures OnTheWay(step) && Enabled(cfg, s, step)
  {
    if c: nat :| c < |s.mail| && s.mail[c].queue != [] {
      step := Consume(c);
    } else if k :| 0 <= k < |s.lanes| && s.lanes[k] != Lane([], Waiting) {
      assert WorkerOk(s.lanes[k].worker, s.mail);
      match s.lanes[k].worker
      case Waiting => step := Take(k);
      case Calling(_) => step := Call(k);
      case Found(_, _) => step := Offer(k);
    } else if s.published != [] {
      step := Dispatch(0);
    } else {
      var item :| item in s.read;
      step := Publish(item);
    }
  }

  lemma {:induction false} Extended(cfg: Config, states: seq<State>, steps: seq<Step>, step: Step)
    requires IsRun(cfg, states, steps) && Enabled(cfg, states[|steps|], step)
    ensures IsRun(cfg, states + [Next(cfg, states[|steps|], step)], steps + [step])
  {
    hide Next, Enabled, Start;
  }

  /** Every run goes on, without another call of Push, to a moment at which every message has been taken out by an owner
      or is lost, or at which the task server has stopped. */
  lemma {:induction false} EndIsReached(cfg: Config, states: seq<State>, steps: seq<Step>)
    returns (states': seq<State>, steps': seq<Step>)
    requires IsRun(cfg, states, steps) && states[0].lanes != [] && cfg.pushChanSize > 0
    ensures IsRun(cfg, states', steps') && states <= states' && steps <= steps'
    ensures forall i | |steps| <= i < |steps'| :: OnTheWay(steps'[i])
    ensures |steps'| <= |steps| + ToDo(states[|steps|])
    ensures Finished(states'[|steps'|])
    decreases ToDo(states[|steps|])
  {
    hide Next, Enabled, Start, Finished, ToDo, Addressed, OnTheWay;
    var s := states[|steps|];
    if Finished(s) {
      return states, steps;
    }
    RunAddressed(cfg, states, steps, |steps|);
    LanesRemain(cfg, states, steps, |steps|);
    var step := SomebodyGoesOn(cfg, s);
    ToDoShrinks(cfg, s, step);
    Extended(cfg, states, steps, step);
    states', steps' := EndIsReached(cfg, states + [Next(cfg, s, step)], steps + [step]);
    hide IsRun;
    assert steps'[|steps|] == step;
  }

  lemma {:induction false} LanesRemain(cfg: Config, states: seq<State>, steps: seq<Step>, k: nat)
    requires IsRun(cfg, states, steps) && k <= |steps|
    ensures |states[k].lanes| == |states[0].lanes|
  {
    hide Next, Enabled, Start;
    if k > 0 {
      LanesRemain(cfg, states, steps, k - 1);
      LanesStay(cfg, states[k - 1], steps[k - 1]);
    }
  }
}
