/** One message to one user, end to end: Push of the logic server reads the user's server and publishes; the task
    server hands the message to any of its queues, whose worker calls the connect server; that looks the user's
    channel up and offers the message to its mailbox. A state machine over these single commands. */
module Delivery {
  import opened Options

  type Chan = nat

  /** A message as it travels, with the number of the Push that it comes from. */
  datatype Item = Item(id: nat, toUser: int, serverId: string, body: nat)

  /** A worker waits; has taken a message and is to call the connect server; or has found the channel there. */
  datatype Worker = Waiting | Calling(item: Item) | Found(item: Item, c: Chan)

  datatype Lane = Lane(queue: seq<Item>, worker: Worker)

  /** A channel of a connection on a connect server: the user it is for at present, its mailbox, and what its owner has
      taken out. served is history: the users it has been attached for. */
  datatype Mailbox = Mailbox(userId: int, serverId: string, queue: seq<Item>, consumed: seq<Item>, served: set<int>)

  /** What the servers hold besides the messages: the user keys, the channels of each connect
      server by user, and the number of calls of Push. */
  datatype Routes = Routes(keys: map<int, string>, index: map<string, map<int, Chan>>, pushes: nat)

  datatype State = State(
    routes: Routes, read: multiset<Item>, published: seq<Item>, lanes: seq<Lane>, mail: seq<Mailbox>,
    lost: multiset<Item>, running: bool)

  /** The connect servers that the task server knows, and the capacities of its queues and of the mailboxes. */
  datatype Config = Config(clients: set<string>, pushChanSize: nat, mailboxSize: nat)

  datatype Step =
    | Read(toUser: int, body: nat)
    | Publish(item: Item)
    | Dispatch(k: nat)
    | Take(k: nat)
    | Call(k: nat)
    | Offer(k: nat)
    | Consume(c: Chan)
    | SetKey(u: int, key: Option<string>)
    | Attach(serverId: string, u: int, c: Chan)
    | Detach(serverId: string, u: int)

  /** GET of the user key; a missing key reads as the empty string. */
  function KeyOf(r: Routes, u: int): string {
    if u in r.keys then r.keys[u] else ""
  }

  function ChannelOf(r: Routes, serverId: string, u: int): Option<Chan> {
    if serverId in r.index && u in r.index[serverId] then Some(r.index[serverId][u]) else None
  }

  function Users(r: Routes, serverId: string): map<int, Chan> {
    if serverId in r.index then r.index[serverId] else map[]
  }

  function NewItem(r: Routes, toUser: int, body: nat): Item {
    Item(r.pushes, toUser, KeyOf(r, toUser), body)
  }

  /** A connect message attaches a new channel, or once more the one that the connection has. */
  predicate Enabled(cfg: Config, s: State, step: Step) {
    match step
    case Attach(serverId, _, c) => c < |s.mail| ==> s.mail[c].serverId == serverId
    case Publish(item) => item in s.read
    case Dispatch(k) => s.running && k < |s.lanes| && s.published != [] && |s.lanes[k].queue| < cfg.pushChanSize
    case Take(k) => s.running && k < |s.lanes| && s.lanes[k].worker.Waiting? && s.lanes[k].queue != []
    case Call(k) => s.running && k < |s.lanes| && s.lanes[k].worker.Calling?
    case Offer(k) => s.running && k < |s.lanes| && s.lanes[k].worker.Found? && s.lanes[k].worker.c < |s.mail|
    case Consume(c) => c < |s.mail| && s.mail[c].queue != []
    case _ => true
  }

  function SetWorker(s: State, k: nat, w: Worker): State
    requires k < |s.lanes|
  {
    s.(lanes := s.lanes[k := s.lanes[k].(worker := w)])
  }

  /** pushSingleToConnect: a server that the task server does not know is a nil client, which panics. */
  function Called(cfg: Config, s: State, k: nat): State
    requires k < |s.lanes| && s.lanes[k].worker.Calling?
  {
    var item := s.lanes[k].worker.item;
    if item.serverId !in cfg.clients then SetWorker(s, k, Waiting).(lost := s.lost + multiset{item}, running := false)
    else match ChannelOf(s.routes, item.serverId, item.toUser)
      case Some(c) => SetWorker(s, k, Found(item, c))
      case None => SetWorker(s, k, Waiting).(lost := s.lost + multiset{item})
  }

  /** Channel.Push drops the message if the mailbox is full. */
  function Offered(cfg: Config, s: State, k: nat): State
    requires k < |s.lanes| && s.lanes[k].worker.Found? && s.lanes[k].worker.c < |s.mail|
  {
    var item, c := s.lanes[k].worker.item, s.lanes[k].worker.c;
    var box := s.mail[c];
    if |box.queue| < cfg.mailboxSize then
      SetWorker(s, k, Waiting).(mail := s.mail[c := box.(queue := box.queue + [item])])
    else SetWorker(s, k, Waiting).(lost := s.lost + multiset{item})
  }

  function Attached(s: State, serverId: string, u: int, c: Chan): State {
    var ch := if c < |s.mail| then c else |s.mail|;
    s.(routes := s.routes.(index := s.routes.index[serverId := Users(s.routes, serverId)[u := ch]]),
       mail := if c < |s.mail| then s.mail[c := s.mail[c].(userId := u, served := s.mail[c].served + {u})]
               else s.mail + [Mailbox(u, serverId, [], [], {u})])
  }

  function Next(cfg: Config, s: State, step: Step): State
    requires Enabled(cfg, s, step)
  {
    match step
    case Read(u, body) =>
      s.(read := s.read + multiset{NewItem(s.routes, u, body)}, routes := s.routes.(pushes := s.routes.pushes + 1))
    case Publish(item) => s.(read := s.read - multiset{item}, published := s.published + [item])
    case Dispatch(k) =>
      var lane := s.lanes[k];
      s.(published := s.published[1..], lanes := s.lanes[k := lane.(queue := lane.queue + [s.published[0]])])
    case Take(k) =>
      var lane := s.lanes[k];
      s.(lanes := s.lanes[k := Lane(lane.queue[1..], Calling(lane.queue[0]))])
    case Call(k) => Called(cfg, s, k)
    case Offer(k) => Offered(cfg, s, k)
    case Consume(c) =>
      var box := s.mail[c];
      s.(mail := s.mail[c := box.(queue := box.queue[1..], consumed := box.consumed + [box.queue[0]])])
    case SetKey(u, key) =>
      s.(routes := s.routes.(keys := match key
          case Some(id) => s.routes.keys[u := id]
          case None => s.routes.keys - {u}))
    case Attach(serverId, u, c) => Attached(s, serverId, u, c)
    case Detach(serverId, u) =>
      s.(routes := s.routes.(index := s.routes.index[serverId := Users(s.routes, serverId) - {u}]))
  }

  // ---------- where the messages are ----------

  function InHand(w: Worker, x: Item): nat {
    if !w.Waiting? && w.item == x then 1 else 0
  }

  function InLane(lane: Lane, x: Item): nat { multiset(lane.queue)[x] + InHand(lane.worker, x) }

  function InMailbox(box: Mailbox, x: Item): nat { multiset(box.queue)[x] + multiset(box.consumed)[x] }

  function InLanes(lanes: seq<Lane>, x: Item): nat {
    if lanes == [] then 0 else InLanes(lanes[..|lanes| - 1], x) + InLane(lanes[|lanes| - 1], x)
  }

  function InMail(mail: seq<Mailbox>, x: Item): nat {
    if mail == [] then 0 else InMail(mail[..|mail| - 1], x) + InMailbox(mail[|mail| - 1], x)
  }

  /** How often a message is under way, delivered or lost. */
  function Everywhere(s: State, x: Item): nat {
    s.read[x] + multiset(s.published)[x] + InLanes(s.lanes, x) + InMail(s.mail, x) + s.lost[x]
  }

  lemma {:induction false} LanesUpdate(lanes: seq<Lane>, k: nat, lane: Lane, x: Item)
    requires k < |lanes|
    ensures InLanes(lanes[k := lane], x) == InLanes(lanes, x) + InLane(lane, x) - InLane(lanes[k], x)
  {
    var last := |lanes| - 1;
    var lanes' := lanes[k := lane];
    hide InLane;
    if k == last {
      assert lanes'[..last] == lanes[..last];
    } else {
      LanesUpdate(lanes[..last], k, lane, x);
      assert lanes'[..last] == lanes[..last][k := lane];
    }
  }

  lemma {:induction false} MailUpdate(mail: seq<Mailbox>, c: nat, box: Mailbox, x: Item)
    requires c < |mail|
    ensures InMail(mail[c := box], x) == InMail(mail, x) + InMailbox(box, x) - InMailbox(mail[c], x)
  {
    var last := |mail| - 1;
    var mail' := mail[c := box];
    hide InMailbox;
    if c == last {
      assert mail'[..last] == mail[..last];
    } else {
      MailUpdate(mail[..last], c, box, x);
      assert mail'[..last] == mail[..last][c := box];
    }
  }

  /** A part is not more than the whole, and neither are two parts. */
  lemma TwoMailboxes(mail: seq<Mailbox>, c: nat, d: nat, x: Item)
    requires c < |mail| && d < |mail|
    ensures InMailbox(mail[c], x) <= InMail(mail, x)
    ensures c != d ==> InMailbox(mail[c], x) + InMailbox(mail[d], x) <= InMail(mail, x)
  {
    var empty := Mailbox(0, "", [], [], {});
    MailUpdate(mail, c, empty, x);
    MailUpdate(mail[c := empty], d, empty, x);
    assert InMailbox(empty, x) == 0;
    hide InMailbox, InMail;
  }

  lemma HeadAndTail(q: seq<Item>, x: Item)
    requires q != []
    ensures multiset(q)[x] == multiset(q[1..])[x] + if q[0] == x then 1 else 0
  {
    assert q == [q[0]] + q[1..];
  }

  /** What a step adds to the messages. */
  function Added(s: State, step: Step, x: Item): nat {
    if step.Read? && x == NewItem(s.routes, step.toUser, step.body) then 1 else 0
  }

  /** No step loses or doubles a message: only Push adds one. */
  lemma StepConserves(cfg: Config, s: State, step: Step, x: Item)
    requires Enabled(cfg, s, step)
    ensures Everywhere(Next(cfg, s, step), x) == Everywhere(s, x) + Added(s, step, x)
  {
    hide Everywhere, Next;
    match step
    case Read(_, _) => RoutingConserves(cfg, s, step, x);
    case SetKey(_, _) => RoutingConserves(cfg, s, step, x);
    case Detach(_, _) => RoutingConserves(cfg, s, step, x);
    case Publish(_) => RoutingConserves(cfg, s, step, x);
    case Dispatch(k) => DispatchConserves(cfg, s, k, x);
    case Take(k) => TakeConserves(cfg, s, k, x);
    case Call(k) => CallConserves(cfg, s, k, x);
    case Offer(k) => OfferConserves(cfg, s, k, x);
    case Consume(c) => ConsumeConserves(cfg, s, c, x);
    case Attach(_, _, _) => AttachConserves(cfg, s, step, x);
  }

  lemma RoutingConserves(cfg: Config, s: State, step: Step, x: Item)
    requires Enabled(cfg, s, step) && (step.Read? || step.SetKey? || step.Detach? || step.Publish?)
    ensures Everywhere(Next(cfg, s, step), x) == Everywhere(s, x) + Added(s, step, x)
  {
    hide InLanes, InMail, KeyOf, Users;
  }

  lemma DispatchConserves(cfg: Config, s: State, k: nat, x: Item)
    requires Enabled(cfg, s, Dispatch(k))
    ensures Everywhere(Next(cfg, s, Dispatch(k)), x) == Everywhere(s, x)
  {
    hide InLanes, InMail;
    HeadAndTail(s.published, x);
    LanesUpdate(s.lanes, k, Next(cfg, s, Dispatch(k)).lanes[k], x);
  }

  lemma TakeConserves(cfg: Config, s: State, k: nat, x: Item)
    requires Enabled(cfg, s, Take(k))
    ensures Everywhere(Next(cfg, s, Take(k)), x) == Everywhere(s, x)
  {
    hide InLanes, InMail;
    HeadAndTail(s.lanes[k].queue, x);
    LanesUpdate(s.lanes, k, Next(cfg, s, Take(k)).lanes[k], x);
  }

  lemma CallConserves(cfg: Config, s: State, k: nat, x: Item)
    requires Enabled(cfg, s, Call(k))
    ensures Everywhere(Next(cfg, s, Call(k)), x) == Everywhere(s, x)
  {
    hide InLanes, InMail, ChannelOf;
    LanesUpdate(s.lanes, k, Next(cfg, s, Call(k)).lanes[k], x);
  }

  lemma OfferConserves(cfg: Config, s: State, k: nat, x: Item)
    requires Enabled(cfg, s, Offer(k))
    ensures Everywhere(Next(cfg, s, Offer(k)), x) == Everywhere(s, x)
  {
    hide InLanes, InMail;
    var s' := Next(cfg, s, Offer(k));
    var c := s.lanes[k].worker.c;
    LanesUpdate(s.lanes, k, s'.lanes[k], x);
    if |s.mail[c].queue| < cfg.mailboxSize {
      MailUpdate(s.mail, c, s'.mail[c], x);
    }
  }

  lemma ConsumeConserves(cfg: Config, s: State, c: nat, x: Item)
    requires Enabled(cfg, s, Consume(c))
    ensures Everywhere(Next(cfg, s, Consume(c)), x) == Everywhere(s, x)
  {
    hide InLanes, InMail;
    HeadAndTail(s.mail[c].queue, x);
    MailUpdate(s.mail, c, Next(cfg, s, Consume(c)).mail[c], x);
  }

  lemma AttachConserves(cfg: Config, s: State, step: Step, x: Item)
    requires Enabled(cfg, s, step) && step.Attach?
    ensures Everywhere(Next(cfg, s, step), x) == Everywhere(s, x)
  {
    hide InLanes, Users;
    var mail' := Next(cfg, s, step).mail;
    if step.c < |s.mail| {
      MailUpdate(s.mail, step.c, mail'[step.c], x);
      hide InMail;
    } else {
      assert mail'[..|s.mail|] == s.mail;
    }
  }

  // ---------- to whom the messages go ----------

  /** The channel is on that server and has been attached for that user. */
  predicate For(box: Mailbox, toUser: int, serverId: string) {
    toUser in box.served && box.serverId == serverId
  }

  ghost predicate IndexOk(r: Routes, mail: seq<Mailbox>) {
    forall serverId, u | serverId in r.index && u in r.index[serverId] ::
      r.index[serverId][u] < |mail| && For(mail[r.index[serverId][u]], u, serverId)
  }

  predicate WorkerOk(w: Worker, mail: seq<Mailbox>) {
    w.Found? ==> w.c < |mail| && For(mail[w.c], w.item.toUser, w.item.serverId)
  }

  ghost predicate LanesOk(lanes: seq<Lane>, mail: seq<Mailbox>) {
    forall k | 0 <= k < |lanes| :: WorkerOk(lanes[k].worker, mail)
  }

  ghost predicate MailboxOk(box: Mailbox) {
    && box.userId in box.served
    && (forall x | x in box.queue :: For(box, x.toUser, x.serverId))
    && (forall x | x in box.consumed :: For(box, x.toUser, x.serverId))
  }

  ghost predicate MailOk(mail: seq<Mailbox>) {
    forall c | 0 <= c < |mail| :: MailboxOk(mail[c])
  }

  /** Channels are found under users that they have been attached for, and mailboxes hold messages for these. */
  ghost predicate Addressed(s: State) {
    IndexOk(s.routes, s.mail) && LanesOk(s.lanes, s.mail) && MailOk(s.mail)
  }

  /** The mailboxes keep their servers, and those whom they have served. */
  predicate SameOwners(mail: seq<Mailbox>, mail': seq<Mailbox>) {
    && |mail| <= |mail'|
    && forall c | 0 <= c < |mail| :: mail[c].served <= mail'[c].served && mail'[c].serverId == mail[c].serverId
  }

  lemma OwnersKept(cfg: Config, s: State, step: Step)
    requires Enabled(cfg, s, step)
    ensures SameOwners(s.mail, Next(cfg, s, step).mail)
  {
    hide Users, KeyOf, ChannelOf, NewItem;
    if step.Attach? || step.Consume? {
      hide Called, Offered;
    } else if step.Offer? {
      hide Called, Attached;
    } else {
      hide Attached, Offered;
      assert Next(cfg, s, step).mail == s.mail;
    }
  }

  lemma IndexKept(cfg: Config, s: State, step: Step)
    requires Enabled(cfg, s, step) && IndexOk(s.routes, s.mail)
    ensures IndexOk(Next(cfg, s, step).routes, Next(cfg, s, step).mail)
  {
    hide Next, IndexOk, SameOwners;
    if step.Attach? {
      AttachKeepsIndex(cfg, s, step);
    } else if step.Detach? {
      DetachKeepsIndex(cfg, s, step.serverId, step.u);
    } else {
      IndexUntouched(cfg, s, step);
      OwnersKept(cfg, s, step);
      IndexStays(s.routes, Next(cfg, s, step).routes, s.mail, Next(cfg, s, step).mail);
    }
  }

  lemma AttachKeepsIndex(cfg: Config, s: State, step: Step)
    requires Enabled(cfg, s, step) && step.Attach? && IndexOk(s.routes, s.mail)
    ensures var s' := Next(cfg, s, step); IndexOk(s'.routes, s'.mail)
  {
  }

  lemma DetachKeepsIndex(cfg: Config, s: State, serverId: string, u: int)
    requires IndexOk(s.routes, s.mail)
    ensures var s' := Next(cfg, s, Detach(serverId, u)); IndexOk(s'.routes, s'.mail)
  {
  }

  lemma IndexUntouched(cfg: Config, s: State, step: Step)
    requires Enabled(cfg, s, step) && !step.Attach? && !step.Detach?
    ensures Next(cfg, s, step).routes.index == s.routes.index
  {
    hide KeyOf, ChannelOf, Called, Offered, NewItem;
    if step.Call? {
      CallKeepsRoutes(cfg, s, step.k);
    } else if step.Offer? {
      OfferKeepsRoutes(cfg, s, step.k);
    }
  }

  lemma CallKeepsRoutes(cfg: Config, s: State, k: nat)
    requires k < |s.lanes| && s.lanes[k].worker.Calling?
    ensures Called(cfg, s, k).routes == s.routes
  {
    hide ChannelOf;
  }

  lemma OfferKeepsRoutes(cfg: Config, s: State, k: nat)
    requires k < |s.lanes| && s.lanes[k].worker.Found? && s.lanes[k].worker.c < |s.mail|
    ensures Offered(cfg, s, k).routes == s.routes
  {
  }

  lemma IndexStays(r: Routes, r': Routes, mail: seq<Mailbox>, mail': seq<Mailbox>)
    requires IndexOk(r, mail) && SameOwners(mail, mail') && r'.index == r.index
    ensures IndexOk(r', mail')
  {
  }

  lemma LanesKept(cfg: Config, s: State, step: Step)
    requires Enabled(cfg, s, step) && Addressed(s)
    ensures LanesOk(Next(cfg, s, step).lanes, Next(cfg, s, step).mail)
  {
    OwnersKept(cfg, s, step);
    hide MailOk, MailboxOk;
    var s' := Next(cfg, s, step);
    forall k | 0 <= k < |s'.lanes|
      ensures WorkerOk(s'.lanes[k].worker, s'.mail)
    {
      assert WorkerOk(s.lanes[k].worker, s.mail);
      hide LanesOk, Users, KeyOf;
    }
  }

  lemma MailKept(cfg: Config, s: State, step: Step)
    requires Enabled(cfg, s, step) && LanesOk(s.lanes, s.mail) && MailOk(s.mail)
    ensures MailOk(Next(cfg, s, step).mail)
  {
    var s' := Next(cfg, s, step);
    forall c | 0 <= c < |s'.mail|
      ensures MailboxOk(s'.mail[c])
    {
      assert c < |s.mail| ==> MailboxOk(s.mail[c]);
      if step.Offer? {
        assert WorkerOk(s.lanes[step.k].worker, s.mail);
      }
      hide MailOk, LanesOk, Users, KeyOf, ChannelOf;
    }
  }

  // ---------- runs ----------

  ghost predicate IsRun(cfg: Config, states: seq<State>, steps: seq<Step>) {
    && |states| == |steps| + 1
    && Start(states[0])
    && forall i | 0 <= i < |steps| ::
            Enabled(cfg, states[i], steps[i]) && states[i + 1] == Next(cfg, states[i], steps[i])
  }

  /** No message and no channel yet. */
  ghost predicate Start(s: State) {
    && s.routes.index == map[] && s.routes.pushes == 0
    && s.read == multiset{} && s.published == [] && s.mail == [] && s.lost == multiset{}
    && forall k | 0 <= k < |s.lanes| :: s.lanes[k] == Lane([], Waiting)
  }

  lemma {:induction false} EmptyLanes(lanes: seq<Lane>, x: Item)
    requires forall k | 0 <= k < |lanes| :: lanes[k] == Lane([], Waiting)
    ensures InLanes(lanes, x) == 0
  {
    if lanes != [] {
      EmptyLanes(lanes[..|lanes| - 1], x);
    }
  }

  lemma {:induction false} RunAddressed(cfg: Config, states: seq<State>, steps: seq<Step>, k: nat)
    requires IsRun(cfg, states, steps) && k <= |steps|
    ensures Addressed(states[k])
  {
    if k > 0 {
      var s, step := states[k - 1], steps[k - 1];
      RunAddressed(cfg, states, steps, k - 1);
      IndexKept(cfg, s, step);
      LanesKept(cfg, s, step);
      MailKept(cfg, s, step);
      hide Next, IndexOk, LanesOk, MailOk;
    }
  }

  /** The message of the Push in step i: its server is what the user key held when it was read. */
  predicate ReadIn(states: seq<State>, steps: seq<Step>, i: nat, x: Item)
    requires i < |steps| && i < |states|
  {
    && steps[i].Read? && x == NewItem(states[i].routes, steps[i].toUser, steps[i].body)
    && x.serverId == KeyOf(states[i].routes, x.toUser)
  }

  ghost predicate Pushed(states: seq<State>, steps: seq<Step>, k: nat, x: Item)
    requires k <= |steps| && k <= |states|
  {
    exists i | 0 <= i < k :: ReadIn(states, steps, i, x)
  }

  lemma PushedStep(states: seq<State>, steps: seq<Step>, k: nat, x: Item)
    requires k < |steps| && k < |states|
    ensures Pushed(states, steps, k + 1, x) <==> Pushed(states, steps, k, x) || ReadIn(states, steps, k, x)
  {
    if Pushed(states, steps, k + 1, x) {
      var i :| 0 <= i < k + 1 && ReadIn(states, steps, i, x);
      assert i < k || i == k;
    }
  }

  lemma PushesCount(cfg: Config, s: State, step: Step)
    requires Enabled(cfg, s, step)
    ensures Next(cfg, s, step).routes.pushes == s.routes.pushes + if step.Read? then 1 else 0
  {
  }

  /** Every message pushed is at every moment in exactly one place, and nothing else is anywhere. */
  lemma {:induction false} RunConserves(cfg: Config, states: seq<State>, steps: seq<Step>, k: nat, x: Item)
    requires IsRun(cfg, states, steps) && k <= |steps|
    ensures Everywhere(states[k], x) == if Pushed(states, steps, k, x) then 1 else 0
    ensures Pushed(states, steps, k, x) ==> x.id < states[k].routes.pushes
  {
    if k == 0 {
      EmptyLanes(states[0].lanes, x);
    } else {
      var s, step := states[k - 1], steps[k - 1];
      RunConserves(cfg, states, steps, k - 1, x);
      StepConserves(cfg, s, step, x);
      PushesCount(cfg, s, step);
      PushedStep(states, steps, k - 1, x);
      assert states[k] == Next(cfg, s, step);
      hide Next, Everywhere, Pushed;
    }
  }

  lemma PushNumbersDiffer(cfg: Config, states: seq<State>, steps: seq<Step>, k: nat, x: Item, y: Item)
    requires IsRun(cfg, states, steps) && k <= |steps|
    requires Pushed(states, steps, k, x) && Pushed(states, steps, k, y) && x.id == y.id
    ensures x == y
  {
    var i :| 0 <= i < k && ReadIn(states, steps, i, x);
    var j :| 0 <= j < k && ReadIn(states, steps, j, y);
    RunConserves(cfg, states, steps, i, y);
    RunConserves(cfg, states, steps, j, x);
    hide Everywhere, IsRun;
  }

  /** Whatever queue each message was given: a message in a mailbox, or taken out of it, was pushed to a user for whom
      the channel has been attached on the server that the user key named when Push read it; it is there once, and no
      message of the same Push is in any other mailbox. */
  lemma ReachesAtMostOneMailbox(cfg: Config, states: seq<State>, steps: seq<Step>, k: nat, c: Chan, x: Item)
    requires IsRun(cfg, states, steps) && k <= |steps| && c < |states[k].mail| && InMailbox(states[k].mail[c], x) > 0
    ensures For(states[k].mail[c], x.toUser, x.serverId)
    ensures Pushed(states, steps, k, x)
    ensures InMailbox(states[k].mail[c], x) == 1
    ensures forall d, y | 0 <= d < |states[k].mail| && d != c && InMailbox(states[k].mail[d], y) > 0 :: y.id != x.id
  {
    var mail := states[k].mail;
    RunAddressed(cfg, states, steps, k);
    assert MailboxOk(mail[c]);
    RunConserves(cfg, states, steps, k, x);
    TwoMailboxes(mail, c, c, x);
    forall d, y | 0 <= d < |mail| && d != c && InMailbox(mail[d], y) > 0
      ensures y.id != x.id
    {
      RunConserves(cfg, states, steps, k, y);
      TwoMailboxes(mail, c, d, y);
      hide IsRun, InMail, InLanes, MailOk, InMailbox;
      if y.id == x.id {
        PushNumbersDiffer(cfg, states, steps, k, x, y);
      }
    }
  }

  // ---------- is it the user of the channel? ----------

  /** Everything under way to a channel, in its mailbox or taken out of it is for its present user. */
  ghost predicate BoxRight(box: Mailbox) {
    && (forall x | x in box.queue :: x.toUser == box.userId)
    && (forall x | x in box.consumed :: x.toUser == box.userId)
  }

  ghost predicate FoundRight(w: Worker, mail: seq<Mailbox>) {
    w.Found? && w.c < |mail| ==> w.item.toUser == mail[w.c].userId
  }

  /** A user is led to channels whose present user it is. */
  ghost predicate IndexRight(r: Routes, mail: seq<Mailbox>) {
    forall serverId, u | serverId in r.index && u in r.index[serverId] && r.index[serverId][u] < |mail| ::
      mail[r.index[serverId][u]].userId == u
  }

  ghost predicate Right(s: State) {
    && IndexRight(s.routes, s.mail)
    && (forall k | 0 <= k < |s.lanes| :: FoundRight(s.lanes[k].worker, s.mail))
    && (forall c | 0 <= c < |s.mail| :: BoxRight(s.mail[c]))
  }

  /** The channel can be found under its present user, or has messages for it. */
  ghost predicate InUse(s: State, c: Chan)
    requires c < |s.mail|
  {
    || (exists serverId, u :: serverId in s.routes.index && u in s.routes.index[serverId]
                              && s.routes.index[serverId][u] == c)
    || (exists k :: 0 <= k < |s.lanes| && s.lanes[k].worker.Found? && s.lanes[k].worker.c == c)
    || s.mail[c].queue != [] || s.mail[c].consumed != []
  }

  /** A connection whose channel is in use attaches it for another user. */
  ghost predicate TakesOver(s: State, step: Step) {
    step.Attach? && step.c < |s.mail| && step.u != s.mail[step.c].userId && InUse(s, step.c)
  }

  /** The steps in which users of channels do not change. */
  lemma UsersStay(cfg: Config, s: State, step: Step)
    requires Enabled(cfg, s, step) && !step.Attach?
    ensures var mail' := Next(cfg, s, step).mail;
            |mail'| == |s.mail| && forall c | 0 <= c < |s.mail| :: mail'[c].userId == s.mail[c].userId
  {
    hide Users, KeyOf, ChannelOf, NewItem, Attached;
  }

  lemma IndexStaysRight(cfg: Config, s: State, step: Step)
    requires Right(s) && Enabled(cfg, s, step) && !step.Attach?
    ensures IndexRight(Next(cfg, s, step).routes, Next(cfg, s, step).mail)
  {
    UsersStay(cfg, s, step);
    if !step.Detach? {
      IndexUntouched(cfg, s, step);
      hide Next;
    }
    hide Called, Offered, BoxRight, FoundRight;
  }

  lemma FoundStaysRight(cfg: Config, s: State, step: Step, k: nat)
    requires Right(s) && Addressed(s) && Enabled(cfg, s, step) && !step.Attach? && k < |s.lanes|
    ensures |Next(cfg, s, step).lanes| == |s.lanes|
    ensures FoundRight(Next(cfg, s, step).lanes[k].worker, Next(cfg, s, step).mail)
  {
    UsersStay(cfg, s, step);
    assert FoundRight(s.lanes[k].worker, s.mail);
    hide Attached, BoxRight, MailOk, LanesOk, NewItem, KeyOf, Users;
  }

  lemma BoxStaysRight(cfg: Config, s: State, step: Step, c: nat)
    requires Right(s) && Enabled(cfg, s, step) && !step.Attach? && c < |s.mail|
    ensures |Next(cfg, s, step).mail| == |s.mail| && BoxRight(Next(cfg, s, step).mail[c])
  {
    UsersStay(cfg, s, step);
    assert BoxRight(s.mail[c]);
    if step.Offer? {
      assert FoundRight(s.lanes[step.k].worker, s.mail);
    }
    hide Attached, IndexRight, NewItem, KeyOf, Users, ChannelOf;
  }

  lemma OthersKeepRight(cfg: Config, s: State, step: Step)
    requires Right(s) && Addressed(s) && Enabled(cfg, s, step) && !step.Attach?
    ensures Right(Next(cfg, s, step))
  {
    hide Next, Addressed, Right, BoxRight, FoundRight, IndexRight;
    UsersStay(cfg, s, step);
    IndexStaysRight(cfg, s, step);
    LanesStay(cfg, s, step);
    forall k | 0 <= k < |s.lanes|
      ensures FoundRight(Next(cfg, s, step).lanes[k].worker, Next(cfg, s, step).mail)
    {
      FoundStaysRight(cfg, s, step, k);
    }
    forall c | 0 <= c < |s.mail|
      ensures BoxRight(Next(cfg, s, step).mail[c])
    {
      BoxStaysRight(cfg, s, step, c);
    }
    RightIs(Next(cfg, s, step));
  }

  lemma RightIs(s: State)
    requires IndexRight(s.routes, s.mail)
    requires forall k | 0 <= k < |s.lanes| :: FoundRight(s.lanes[k].worker, s.mail)
    requires forall c | 0 <= c < |s.mail| :: BoxRight(s.mail[c])
    ensures Right(s)
  {
  }

  lemma LanesStay(cfg: Config, s: State, step: Step)
    requires Enabled(cfg, s, step)
    ensures |Next(cfg, s, step).lanes| == |s.lanes|
  {
    hide Users, KeyOf, ChannelOf, NewItem;
  }

  lemma AttachRightExactly(s: State, serverId: string, u: int, c: Chan)
    requires Right(s) && Addressed(s)
    ensures Right(Attached(s, serverId, u, c)) <==> !TakesOver(s, Attach(serverId, u, c))
  {
    hide MailOk;
    var s' := Attached(s, serverId, u, c);
    if TakesOver(s, Attach(serverId, u, c)) {
      InUseIsWrong(s, serverId, u, c);
    } else {
      forall d | 0 <= d < |s'.mail|
        ensures BoxRight(s'.mail[d])
      {
        assert d < |s.mail| ==> BoxRight(s.mail[d]);
      }
      forall k | 0 <= k < |s'.lanes|
        ensures FoundRight(s'.lanes[k].worker, s'.mail)
      {
        assert FoundRight(s.lanes[k].worker, s.mail) && WorkerOk(s.lanes[k].worker, s.mail);
      }
      assert IndexRight(s'.routes, s'.mail);
    }
  }

  lemma InUseIsWrong(s: State, serverId: string, u: int, c: Chan)
    requires Right(s) && Addressed(s) && TakesOver(s, Attach(serverId, u, c))
    ensures !Right(Attached(s, serverId, u, c))
  {
    var s' := Attached(s, serverId, u, c);
    if s.mail[c].queue != [] {
      assert s.mail[c].queue[0] in s.mail[c].queue && BoxRight(s.mail[c]);
      assert !BoxRight(s'.mail[c]);
    } else if s.mail[c].consumed != [] {
      assert s.mail[c].consumed[0] in s.mail[c].consumed && BoxRight(s.mail[c]);
      assert !BoxRight(s'.mail[c]);
    } else if exists k :: 0 <= k < |s.lanes| && s.lanes[k].worker.Found? && s.lanes[k].worker.c == c {
      var k :| 0 <= k < |s.lanes| && s.lanes[k].worker.Found? && s.lanes[k].worker.c == c;
      assert FoundRight(s.lanes[k].worker, s.mail) && !FoundRight(s'.lanes[k].worker, s'.mail);
    } else {
      var id, v :| id in s.routes.index && v in s.routes.index[id] && s.routes.index[id][v] == c;
      assert v in s'.routes.index[id] && s'.routes.index[id][v] == c;
      assert !IndexRight(s'.routes, s'.mail);
    }
  }

  /** In every state of every run: that users are led to their own channels, and mailboxes hold messages for their
      present user only, is lost exactly in such a step. */
  lemma RightLostExactly(cfg: Config, s: State, step: Step)
    requires Right(s) && Addressed(s) && Enabled(cfg, s, step)
    ensures Right(Next(cfg, s, step)) <==> !TakesOver(s, step)
  {
    if step.Attach? {
      AttachRightExactly(s, step.serverId, step.u, step.c);
    } else {
      OthersKeepRight(cfg, s, step);
    }
    hide Right, Addressed, Attached, InUse;
  }

  lemma {:induction false} RunRight(cfg: Config, states: seq<State>, steps: seq<Step>, k: nat)
    requires IsRun(cfg, states, steps) && k <= |steps|
    requires forall i | 0 <= i < k :: !TakesOver(states[i], steps[i])
    ensures Right(states[k])
  {
    if k > 0 {
      RunRight(cfg, states, steps, k - 1);
      RunAddressed(cfg, states, steps, k - 1);
      RightLostExactly(cfg, states[k - 1], steps[k - 1]);
      hide Next, Addressed, Right, TakesOver;
    }
  }

  /** A user connects, the same connection connects for another user, and a message to the first user is pushed. */
  const TAKEN_OVER: seq<Step> := [
    Attach("s", 1, 0), SetKey(1, Some("s")), Attach("s", 2, 0), Read(1, 0), Publish(Item(0, 1, "s", 0)), Dispatch(0),
    Take(0), Call(0), Offer(0)]

  function TakenOver(): seq<State> {
    var x := Item(0, 1, "s", 0);
    var keys, own, both := map[1 := "s"], map["s" := map[1 := 0 as Chan]], map["s" := map[1 := 0 as Chan, 2 := 0]];
    var first, box := Mailbox(1, "s", [], [], {1}), Mailbox(2, "s", [], [], {1, 2});
    var none, idle := multiset{}, Lane([], Waiting);
    [State(Routes(map[], map[], 0), none, [], [idle], [], none, true),
     State(Routes(map[], own, 0), none, [], [idle], [first], none, true),
     State(Routes(keys, own, 0), none, [], [idle], [first], none, true),
     State(Routes(keys, both, 0), none, [], [idle], [box], none, true),
     State(Routes(keys, both, 1), multiset{x}, [], [idle], [box], none, true),
     State(Routes(keys, both, 1), none, [x], [idle], [box], none, true),
     State(Routes(keys, both, 1), none, [], [Lane([x], Waiting)], [box], none, true),
     State(Routes(keys, both, 1), none, [], [Lane([], Calling(x))], [box], none, true),
     State(Routes(keys, both, 1), none, [], [Lane([], Found(x, 0))], [box], none, true),
     State(Routes(keys, both, 1), none, [], [idle], [box.(queue := [x])], none, true)]
  }

  lemma TakenOverRoutes(cfg: Config, i: nat)
    requires i < 4
    ensures Enabled(cfg, TakenOver()[i], TAKEN_OVER[i])
    ensures TakenOver()[i + 1] == Next(cfg, TakenOver()[i], TAKEN_OVER[i])
  {
    var x := Item(0, 1, "s", 0);
    assert multiset{} + multiset{x} == multiset{x} && {1} + {2} == {1, 2};
    if i == 0 {} else if i == 1 {} else if i == 2 {} else {}
  }

  lemma TakenOverMessage(cfg: Config, i: nat)
    requires "s" in cfg.clients && cfg.pushChanSize > 0 && cfg.mailboxSize > 0 && 4 <= i < 9
    ensures Enabled(cfg, TakenOver()[i], TAKEN_OVER[i])
    ensures TakenOver()[i + 1] == Next(cfg, TakenOver()[i], TAKEN_OVER[i])
  {
    var x := Item(0, 1, "s", 0);
    assert multiset{x} - multiset{x} == multiset{} && [] + [x] == [x] && [x][1..] == [];
    if i == 4 {} else if i == 5 {} else if i == 6 {} else if i == 7 {} else {}
  }

  /** The message to user 1 is in the mailbox of the channel that user 2 has. */
  lemma TakenOverRun(cfg: Config)
    requires "s" in cfg.clients && cfg.pushChanSize > 0 && cfg.mailboxSize > 0
    ensures IsRun(cfg, TakenOver(), TAKEN_OVER) && TakesOver(TakenOver()[2], TAKEN_OVER[2])
    ensures TakenOver()[9].mail == [Mailbox(2, "s", [Item(0, 1, "s", 0)], [], {1, 2})]
  {
    var states := TakenOver();
    forall i | 0 <= i < 9
      ensures Enabled(cfg, states[i], TAKEN_OVER[i]) && states[i + 1] == Next(cfg, states[i], TAKEN_OVER[i])
    {
      if i < 4 {
        TakenOverRoutes(cfg, i);
      } else {
        TakenOverMessage(cfg, i);
      }
    }
    hide Next, Enabled;
    assert "s" in states[2].routes.index && 1 in states[2].routes.index["s"] && states[2].routes.index["s"][1] == 0;
    assert Start(states[0]);
  }

  // ---------- does the task server survive? ----------

  /** The Push in step i reads a server that the task server knows. */
  predicate ReadsKnown(cfg: Config, s: State, step: Step) {
    step.Read? ==> KeyOf(s.routes, step.toUser) in cfg.clients
  }

  /** In step i a worker calls a connect server for x. */
  predicate Calls(s: State, step: Step, x: Item) {
    step.Call? && step.k < |s.lanes| && s.lanes[step.k].worker == Calling(x)
  }

  predicate CallsUnknown(cfg: Config, s: State, step: Step) {
    step.Call? && step.k < |s.lanes| && s.lanes[step.k].worker.Calling?
    && s.lanes[step.k].worker.item.serverId !in cfg.clients
  }

  lemma StopsExactly(cfg: Config, s: State, step: Step)
    requires Enabled(cfg, s, step)
    ensures Next(cfg, s, step).running <==> s.running && !CallsUnknown(cfg, s, step)
  {
    hide Users, KeyOf, ChannelOf;
  }

  lemma {:induction false} RunningExactly(cfg: Config, states: seq<State>, steps: seq<Step>, k: nat)
    requires IsRun(cfg, states, steps) && states[0].running && k <= |steps|
    ensures states[k].running <==> forall i | 0 <= i < k :: !CallsUnknown(cfg, states[i], steps[i])
  {
    if k > 0 {
      RunningExactly(cfg, states, steps, k - 1);
      StopsExactly(cfg, states[k - 1], steps[k - 1]);
      hide Next, Start;
    }
  }

  lemma {:induction false} LaneHas(lanes: seq<Lane>, k: nat, x: Item)
    requires k < |lanes|
    ensures InLane(lanes[k], x) <= InLanes(lanes, x)
  {
    LanesUpdate(lanes, k, Lane([], Waiting), x);
  }

  /** What a worker calls for was pushed earlier. */
  lemma CalledWasPushed(cfg: Config, states: seq<State>, steps: seq<Step>, i: nat, x: Item)
    requires IsRun(cfg, states, steps) && i < |steps| && Calls(states[i], steps[i], x)
    ensures Pushed(states, steps, i, x)
  {
    LaneHas(states[i].lanes, steps[i].k, x);
    RunConserves(cfg, states, steps, i, x);
    hide IsRun, InLanes, InMail, Pushed;
  }

  lemma PushedIsKnown(cfg: Config, states: seq<State>, steps: seq<Step>, i: nat, x: Item)
    requires i <= |steps| && |states| == |steps| + 1 && Pushed(states, steps, i, x)
    requires forall j | 0 <= j < i :: ReadsKnown(cfg, states[j], steps[j])
    ensures x.serverId in cfg.clients
  {
    var j :| 0 <= j < i && ReadIn(states, steps, j, x);
    assert ReadsKnown(cfg, states[j], steps[j]);
  }

  /** If every Push so far has read a server that the task server knows, the task server is running. */
  lemma KnownKeysKeepRunning(cfg: Config, states: seq<State>, steps: seq<Step>, k: nat)
    requires IsRun(cfg, states, steps) && states[0].running && k <= |steps|
    requires forall i | 0 <= i < k :: ReadsKnown(cfg, states[i], steps[i])
    ensures states[k].running
  {
    RunningExactly(cfg, states, steps, k);
    forall i | 0 <= i < k
      ensures !CallsUnknown(cfg, states[i], steps[i])
    {
      var s, step := states[i], steps[i];
      if step.Call? && step.k < |s.lanes| && s.lanes[step.k].worker.Calling? {
        CalledWasPushed(cfg, states, steps, i, s.lanes[step.k].worker.item);
        PushedIsKnown(cfg, states, steps, i, s.lanes[step.k].worker.item);
      }
    }
  }

  /** The task server has stopped exactly if a worker has called for a message, pushed before, whose server
      it does not know. */
  lemma StoppedExactly(cfg: Config, states: seq<State>, steps: seq<Step>, k: nat)
    requires IsRun(cfg, states, steps) && states[0].running && k <= |steps|
    ensures !states[k].running
       <==> exists i, x :: 0 <= i < k && Calls(states[i], steps[i], x) && Pushed(states, steps, i, x)
              && x.serverId !in cfg.clients
  {
    RunningExactly(cfg, states, steps, k);
    if !states[k].running {
      var i :| 0 <= i < k && CallsUnknown(cfg, states[i], steps[i]);
      var x := states[i].lanes[steps[i].k].worker.item;
      CalledWasPushed(cfg, states, steps, i, x);
      assert Calls(states[i], steps[i], x);
    }
    hide IsRun, Pushed;
  }

  /** What has been through a call that did not panic is for a known server. */
  ghost predicate ServedKnown(cfg: Config, s: State) {
    && (forall k | 0 <= k < |s.lanes| && s.lanes[k].worker.Found? :: s.lanes[k].worker.item.serverId in cfg.clients)
    && (forall c | 0 <= c < |s.mail| :: BoxKnown(cfg, s.mail[c]))
    && (forall x | x in s.lost :: x.serverId in cfg.clients)
  }

  ghost predicate BoxKnown(cfg: Config, box: Mailbox) {
    && (forall x | x in box.queue :: x.serverId in cfg.clients)
    && (forall x | x in box.consumed :: x.serverId in cfg.clients)
  }

  lemma StepServesKnown(cfg: Config, s: State, step: Step)
    requires Enabled(cfg, s, step) && ServedKnown(cfg, s) && !CallsUnknown(cfg, s, step)
    ensures ServedKnown(cfg, Next(cfg, s, step))
  {
    hide Next, Enabled, CallsUnknown;
    var s' := Next(cfg, s, step);
    forall k | 0 <= k < |s'.lanes| && s'.lanes[k].worker.Found?
      ensures s'.lanes[k].worker.item.serverId in cfg.clients
    {
      StepServesLane(cfg, s, step, k);
    }
    forall c | 0 <= c < |s'.mail|
      ensures BoxKnown(cfg, s'.mail[c])
    {
      StepServesBox(cfg, s, step, c);
    }
    StepServesLost(cfg, s, step);
    hide BoxKnown;
  }

  lemma StepServesLane(cfg: Config, s: State, step: Step, k: nat)
    requires Enabled(cfg, s, step) && ServedKnown(cfg, s) && !CallsUnknown(cfg, s, step)
    requires var s' := Next(cfg, s, step); k < |s'.lanes| && s'.lanes[k].worker.Found?
    ensures Next(cfg, s, step).lanes[k].worker.item.serverId in cfg.clients
  {
    hide KeyOf, ChannelOf, Users, BoxKnown;
  }

  lemma StepServesBox(cfg: Config, s: State, step: Step, c: Chan)
    requires Enabled(cfg, s, step) && ServedKnown(cfg, s) && !CallsUnknown(cfg, s, step)
    requires c < |Next(cfg, s, step).mail|
    ensures BoxKnown(cfg, Next(cfg, s, step).mail[c])
  {
    hide KeyOf, ChannelOf, Users;
    assert c < |s.mail| ==> BoxKnown(cfg, s.mail[c]);
  }

  lemma StepServesLost(cfg: Config, s: State, step: Step)
    requires Enabled(cfg, s, step) && ServedKnown(cfg, s) && !CallsUnknown(cfg, s, step)
    ensures forall x | x in Next(cfg, s, step).lost :: x.serverId in cfg.clients
  {
    hide KeyOf, ChannelOf, Users, BoxKnown;
  }

  lemma {:induction false} RunServesKnown(cfg: Config, states: seq<State>, steps: seq<Step>, k: nat)
    requires IsRun(cfg, states, steps) && k <= |steps|
    requires forall i | 0 <= i < k :: !CallsUnknown(cfg, states[i], steps[i])
    ensures ServedKnown(cfg, states[k])
  {
    if k > 0 {
      RunServesKnown(cfg, states, steps, k - 1);
      StepServesKnown(cfg, states[k - 1], steps[k - 1]);
      hide Next, Start, ServedKnown;
    }
  }

  /** Every message has been delivered, dropped, or the end of the task server. */
  ghost predicate Drained(s: State) {
    && s.read == multiset{} && s.published == []
    && forall k | 0 <= k < |s.lanes| :: s.lanes[k] == Lane([], Waiting)
  }

  lemma {:induction false} InSomeMailbox(mail: seq<Mailbox>, x: Item)
    requires InMail(mail, x) > 0
    ensures exists c :: 0 <= c < |mail| && InMailbox(mail[c], x) > 0
  {
    var last := |mail| - 1;
    if InMailbox(mail[last], x) == 0 {
      InSomeMailbox(mail[..last], x);
      var c :| 0 <= c < last && InMailbox(mail[..last][c], x) > 0;
      assert InMailbox(mail[c], x) > 0;
    }
  }

  lemma DrainedItemIsServed(cfg: Config, s: State, x: Item)
    requires Drained(s) && ServedKnown(cfg, s) && Everywhere(s, x) > 0
    ensures x.serverId in cfg.clients
  {
    EmptyLanes(s.lanes, x);
    if x !in s.lost {
      InSomeMailbox(s.mail, x);
      var c :| 0 <= c < |s.mail| && InMailbox(s.mail[c], x) > 0;
      assert BoxKnown(cfg, s.mail[c]);
    }
  }

  /** Once nothing is under way any more, the task server is running exactly if every Push has read a known server. */
  lemma RunningWhenDrainedExactly(cfg: Config, states: seq<State>, steps: seq<Step>, k: nat)
    requires IsRun(cfg, states, steps) && states[0].running && k <= |steps| && Drained(states[k])
    ensures states[k].running <==> forall i | 0 <= i < k :: ReadsKnown(cfg, states[i], steps[i])
  {
    if states[k].running {
      RunningExactly(cfg, states, steps, k);
      RunServesKnown(cfg, states, steps, k);
      forall i | 0 <= i < k
        ensures ReadsKnown(cfg, states[i], steps[i])
      {
        if steps[i].Read? {
          var x := NewItem(states[i].routes, steps[i].toUser, steps[i].body);
          assert ReadIn(states, steps, i, x);
          RunConserves(cfg, states, steps, k, x);
          DrainedItemIsServed(cfg, states[k], x);
        }
        hide IsRun, Drained, ServedKnown, Everywhere;
      }
    } else if forall i | 0 <= i < k :: ReadsKnown(cfg, states[i], steps[i]) {
      KnownKeysKeepRunning(cfg, states, steps, k);
      assert false;
    }
  }
}
