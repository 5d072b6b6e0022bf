/** Login and Logout interleaved Redis command by Redis command, with any number of calls of any users in flight. */
module SessionSteps {
  import opened Options
  import opened Redis
  import opened Sessions

  /** What a call has still to do. Login: delete the session that its GET named, then write its own.
      Logout, after its HGETALL: delete the entry of the user, the user key, and its session. */
  datatype Pc =
    | ToRevoke(u: int, name: string, t: Token, read: Token)
    | ToExec(u: int, name: string, t: Token)
    | ToUnname(u: int, t: Token)
    | ToDelServer(u: int, t: Token)
    | ToEnd(u: int, t: Token)

  /** The store, the registered users, every token ever made with the user it was made for, and the calls in flight. */
  datatype Stage = Stage(st: Store, users: set<int>, made: map<Token, int>, calls: map<nat, Pc>)

  datatype Step =
    | Signup(u: int, name: string, t: Token)
    | BeginLogin(id: nat, u: int, name: string, t: Token)
    | BeginLogout(id: nat, t: Token)
    | Proceed(id: nat)
    | Pass(seconds: nat)

  const START: Stage := Stage(EMPTY, {}, map[], map[])

  /** Users log in when registered, and tokens are new. Nothing else is asked of the calls: when two calls of Register
      overlap, both find the name free, and the second adds a session to the user whom the first has made. */
  predicate CanStep(s: Stage, step: Step) {
    match step
    case Signup(_, _, t) => t != "" && t !in s.made
    case BeginLogin(id, u, _, t) => id !in s.calls && u in s.users && t != "" && t !in s.made
    case BeginLogout(id, _) => id !in s.calls
    case Proceed(id) => id in s.calls
    case Pass(_) => true
  }

  function Commanded(st: Store, pc: Pc): Store {
    match pc
    case ToRevoke(_, _, _, read) => DelSession(st, read)
    case ToExec(u, name, t) => PutNamedSession(st, t, Session(u, name))
    case ToUnname(u, _) => DelNamed(st, u)
    case ToDelServer(u, _) => DelServer(st, u)
    case ToEnd(_, t) => DelSession(st, t)
  }

  function Continued(calls: map<nat, Pc>, id: nat): map<nat, Pc>
    requires id in calls
  {
    match calls[id]
    case ToRevoke(u, name, t, _) => calls[id := ToExec(u, name, t)]
    case ToUnname(u, t) => calls[id := ToDelServer(u, t)]
    case ToDelServer(u, t) => calls[id := ToEnd(u, t)]
    case _ => calls - {id}
  }

  function FirstLogin(st: Store, u: int, name: string, t: Token): Pc {
    match GetNamed(st, u)
    case Some(read) => if read != "" then ToRevoke(u, name, t, read) else ToExec(u, name, t)
    case None => ToExec(u, name, t)
  }

  function Stepped(s: Stage, step: Step): Stage
    requires CanStep(s, step)
  {
    match step
    case Signup(u, name, t) => Stage(Registered(s.st, u, name, t), s.users + {u}, s.made[t := u], s.calls)
    case BeginLogin(id, u, name, t) =>
      Stage(s.st, s.users, s.made[t := u], s.calls[id := FirstLogin(s.st, u, name, t)])
    case BeginLogout(id, t) =>
      (match GetSession(s.st, t)
       case Some(session) => s.(calls := s.calls[id := ToUnname(session.userId, t)])
       case None => s)
    case Proceed(id) => s.(st := Commanded(s.st, s.calls[id]), calls := Continued(s.calls, id))
    case Pass(seconds) => s.(st := Later(s.st, seconds))
  }

  // ---------- the invariant ----------

  predicate Entering(pc: Pc) { pc.ToRevoke? || pc.ToExec? }

  predicate Dooms(pc: Pc) { pc.ToDelServer? || pc.ToEnd? }

  /** No entry names the token. */
  ghost predicate Nameless(st: Store, t: Token) {
    forall u | u in st.sessMap :: st.sessMap[u].value != t
  }

  /** An entry names a token of its user; the session of the token, if it is still there, expires with the entry. */
  ghost predicate EntryOk(st: Store, made: map<Token, int>, u: int)
    requires u in st.sessMap
  {
    var t := st.sessMap[u].value;
    && t in made && made[t] == u
    && (t in st.sessions ==> st.sessions[t].deadline == st.sessMap[u].deadline)
  }

  ghost predicate StoreOk(st: Store, users: set<int>, made: map<Token, int>) {
    && "" !in made
    && (forall t | t in st.sessions :: t in made && st.sessions[t].value.userId == made[t] && made[t] in users)
    && (forall u | u in st.sessMap :: EntryOk(st, made, u))
  }

  /** A call has a token of its user. That of a Login is in no session and no entry yet; that of a Logout is not
      named any more once the entry has been deleted. */
  ghost predicate CallOk(st: Store, users: set<int>, made: map<Token, int>, pc: Pc) {
    && pc.t in made && made[pc.t] == pc.u
    && (Entering(pc) ==> pc.t !in st.sessions && Nameless(st, pc.t) && pc.u in users)
    && (Dooms(pc) ==> Nameless(st, pc.t))
  }

  ghost predicate CallsApart(calls: map<nat, Pc>) {
    forall i, j | i in calls && j in calls && i != j && Entering(calls[i]) :: calls[i].t != calls[j].t
  }

  ghost predicate CallsOk(s: Stage) {
    forall id | id in s.calls :: CallOk(s.st, s.users, s.made, s.calls[id])
  }

  ghost predicate StageOk(s: Stage) {
    StoreOk(s.st, s.users, s.made) && CallsOk(s) && CallsApart(s.calls)
  }

  lemma StartOk()
    ensures StageOk(START)
  {
  }

  lemma StepKeepsStore(s: Stage, step: Step)
    requires StageOk(s) && CanStep(s, step)
    ensures var s' := Stepped(s, step); StoreOk(s'.st, s'.users, s'.made)
  {
    hide CallsApart;
    if step.Proceed? {
      assert CallOk(s.st, s.users, s.made, s.calls[step.id]);
    }
    var s' := Stepped(s, step);
    forall u | u in s'.st.sessMap
      ensures EntryOk(s'.st, s'.made, u)
    {
      assert u in s.st.sessMap ==> EntryOk(s.st, s.made, u);
    }
  }

  lemma StepKeepsApart(s: Stage, step: Step)
    requires StageOk(s) && CanStep(s, step)
    ensures CallsApart(Stepped(s, step).calls)
  {
    hide StoreOk;
    assert forall i | i in s.calls :: CallOk(s.st, s.users, s.made, s.calls[i]);
    hide CallsOk, Nameless, Commanded;
    if step.BeginLogout? && GetSession(s.st, step.t).Some? {
      assert forall i | i in s.calls && Entering(s.calls[i]) :: s.calls[i].t != step.t;
    }
    hide CallOk;
  }

  lemma StepKeepsCalls(s: Stage, step: Step)
    requires StageOk(s) && CanStep(s, step)
    ensures CallsOk(Stepped(s, step))
  {
    hide Stepped, StageOk;
    var s' := Stepped(s, step);
    forall id | id in s'.calls
      ensures CallOk(s'.st, s'.users, s'.made, s'.calls[id])
    {
      if step.Pass? || step.Signup? || id != step.id {
        CallStays(s, step, id);
      } else {
        CallMoves(s, step);
      }
    }
    hide CallOk;
  }

  /** What one call does leaves the others as they should be. */
  lemma CallStays(s: Stage, step: Step, id: nat)
    requires StageOk(s) && CanStep(s, step) && id in Stepped(s, step).calls
    requires step.Pass? || step.Signup? || id != step.id
    ensures var s' := Stepped(s, step); CallOk(s'.st, s'.users, s'.made, s'.calls[id])
  {
    assert CallOk(s.st, s.users, s.made, s.calls[id]);
    hide StoreOk;
    if step.Proceed? {
      assert CallOk(s.st, s.users, s.made, s.calls[step.id]);
      assert Entering(s.calls[step.id]) ==> s.calls[step.id].t != s.calls[id].t;
      hide CallsOk, CallsApart, CallOk, Commanded;
      CommandKeepsCall(s.st, s.users, s.made, s.calls[step.id], s.calls[id]);
    }
  }

  lemma CommandKeepsCall(st: Store, users: set<int>, made: map<Token, int>, pc: Pc, other: Pc)
    requires CallOk(st, users, made, other) && (Entering(pc) ==> pc.t != other.t)
    ensures CallOk(Commanded(st, pc), users, made, other)
  {
  }

  lemma CallMoves(s: Stage, step: Step)
    requires StageOk(s) && CanStep(s, step) && !step.Pass? && !step.Signup? && step.id in Stepped(s, step).calls
    ensures var s' := Stepped(s, step); CallOk(s'.st, s'.users, s'.made, s'.calls[step.id])
  {
    if step.Proceed? {
      assert CallOk(s.st, s.users, s.made, s.calls[step.id]);
    }
    assert forall u | u in s.st.sessMap :: EntryOk(s.st, s.made, u);
    hide CallsApart;
  }

  lemma StepKeepsOk(s: Stage, step: Step)
    requires StageOk(s) && CanStep(s, step)
    ensures StageOk(Stepped(s, step))
  {
    StepKeepsStore(s, step);
    StepKeepsApart(s, step);
    StepKeepsCalls(s, step);
    hide StoreOk, CallsOk, CallsApart, Stepped;
  }

  // ---------- what each command does to the sessions of a user ----------

  /** The user's entry names a live session of the user. */
  predicate NamesLive(st: Store, v: int) {
    GetNamed(st, v).Some? && GetNamed(st, v).value in LiveOf(st, v)
  }

  lemma LiveSplit(st: Store, v: int)
    ensures LiveOf(st, v) == Unnamed(st, v) + if NamesLive(st, v) then {GetNamed(st, v).value} else {}
    ensures NamesLive(st, v) ==> GetNamed(st, v).value !in Unnamed(st, v)
  {
  }

  lemma DelSessionEffect(st: Store, t: Token, v: int)
    ensures LiveOf(DelSession(st, t), v) == LiveOf(st, v) - {t}
    ensures Unnamed(DelSession(st, t), v) == Unnamed(st, v) - {t}
  {
  }

  /** A deleted entry leaves all the live sessions of its user unnamed. */
  lemma DelNamedEffect(st: Store, u: int, v: int)
    ensures LiveOf(DelNamed(st, u), v) == LiveOf(st, v)
    ensures Unnamed(DelNamed(st, u), v) == if v == u then LiveOf(st, v) else Unnamed(st, v)
  {
  }

  lemma DelServerEffect(st: Store, u: int, v: int)
    ensures LiveOf(DelServer(st, u), v) == LiveOf(st, v) && Unnamed(DelServer(st, u), v) == Unnamed(st, v)
  {
  }

  /** An overwritten entry leaves all the sessions unnamed that were live before. */
  lemma ExecEffect(st: Store, u: int, name: string, t: Token, v: int)
    requires FreshToken(st, t) && Nameless(st, t)
    ensures var st' := PutNamedSession(st, t, Session(u, name));
            && LiveOf(st', v) == LiveOf(st, v) + (if v == u then {t} else {})
            && Unnamed(st', v) == if v == u then LiveOf(st, v) else Unnamed(st, v)
  {
    var st' := PutNamedSession(st, t, Session(u, name));
    LiveAfterPut(st, t, Session(u, name), v);
    assert LiveOf(st', v) == LiveOf(PutSession(st, t, Session(u, name)), v);
  }

  lemma SignupEffect(st: Store, u: int, name: string, t: Token, v: int)
    requires FreshToken(st, t) && Nameless(st, t)
    ensures var st' := Registered(st, u, name, t);
            && LiveOf(st', v) == LiveOf(st, v) + (if v == u then {t} else {})
            && Unnamed(st', v) == Unnamed(st, v) + if v == u then {t} else {}
  {
    LiveAfterPut(st, t, Session(u, name), v);
    hide LiveOf;
  }

  lemma PassEffect(st: Store, seconds: nat, v: int)
    requires forall u | u in st.sessMap && st.sessMap[u].value in st.sessions ::
               st.sessions[st.sessMap[u].value].deadline == st.sessMap[u].deadline
    ensures LiveOf(Later(st, seconds), v) <= LiveOf(st, v) && Unnamed(Later(st, seconds), v) <= Unnamed(st, v)
  {
  }

  /** The unnamed sessions of a user after one step. */
  function UnnamedNext(s: Stage, step: Step, v: int): set<Token>
    requires CanStep(s, step) && !step.Pass?
  {
    var now := Unnamed(s.st, v);
    match step
    case Signup(u, _, t) => if v == u then now + {t} else now
    case Proceed(id) =>
      (match s.calls[id]
       case ToRevoke(_, _, _, read) => now - {read}
       case ToExec(u, _, _) => if v == u then LiveOf(s.st, v) else now
       case ToUnname(u, _) => if v == u then LiveOf(s.st, v) else now
       case ToDelServer(_, _) => now
       case ToEnd(_, t) => now - {t})
    case _ => now
  }

  lemma UnnamedAfterStep(s: Stage, step: Step, v: int)
    requires StageOk(s) && CanStep(s, step)
    ensures if step.Pass? then Unnamed(Stepped(s, step).st, v) <= Unnamed(s.st, v)
            else Unnamed(Stepped(s, step).st, v) == UnnamedNext(s, step, v)
  {
    hide CallsApart, LiveOf, Unnamed, Registered, PutNamedSession, DelSession, DelNamed, DelServer, Later;
    match step
    case Signup(u, name, t) =>
      NewToken(s, t);
      SignupEffect(s.st, u, name, t, v);
    case Pass(seconds) =>
      assert forall u | u in s.st.sessMap :: EntryOk(s.st, s.made, u);
      PassEffect(s.st, seconds, v);
    case Proceed(id) =>
      assert CallOk(s.st, s.users, s.made, s.calls[id]);
      UnnamedAfterCommand(s, id, v);
    case _ =>
  }

  lemma NewToken(s: Stage, t: Token)
    requires StageOk(s) && t != "" && t !in s.made
    ensures FreshToken(s.st, t) && Nameless(s.st, t)
  {
    assert forall u | u in s.st.sessMap :: EntryOk(s.st, s.made, u);
  }

  lemma UnnamedAfterCommand(s: Stage, id: nat, v: int)
    requires StageOk(s) && id in s.calls
    ensures Unnamed(Commanded(s.st, s.calls[id]), v) == UnnamedNext(s, Proceed(id), v)
  {
    assert CallOk(s.st, s.users, s.made, s.calls[id]);
    hide CallsApart, CallsOk, LiveOf, Unnamed, Nameless, PutNamedSession, DelSession, DelNamed, DelServer;
    match s.calls[id]
    case ToRevoke(_, _, _, read) => DelSessionEffect(s.st, read, v);
    case ToExec(u, name, t) => ExecEffect(s.st, u, name, t, v);
    case ToUnname(u, _) => DelNamedEffect(s.st, u, v);
    case ToDelServer(u, _) => DelServerEffect(s.st, u, v);
    case ToEnd(_, t) => DelSessionEffect(s.st, t, v);
  }

  // ---------- when do the unnamed sessions grow? ----------

  /** A registration, or an overwrite or a deletion of an entry that names a live session. */
  predicate Grows(s: Stage, step: Step, v: int) {
    || (step.Signup? && step.u == v)
    || (step.Proceed? && step.id in s.calls && s.calls[step.id].u == v
        && (s.calls[step.id].ToExec? || s.calls[step.id].ToUnname?) && NamesLive(s.st, v))
  }

  lemma SubsetSize<T>(a: set<T>, b: set<T>)
    requires a <= b
    ensures |a| <= |b|
  {
    assert |b| == |a| + |b - a|;
  }

  /** Per command, for every state of every interleaving: the unnamed sessions of a user become more, and
      then by one, exactly in these steps. */
  lemma UnnamedGrowsExactly(s: Stage, step: Step, v: int)
    requires StageOk(s) && CanStep(s, step)
    ensures |Unnamed(Stepped(s, step).st, v)| > |Unnamed(s.st, v)| <==> Grows(s, step, v)
    ensures |Unnamed(Stepped(s, step).st, v)| <= |Unnamed(s.st, v)| + 1
  {
    UnnamedAfterStep(s, step, v);
    LiveSplit(s.st, v);
    if step.Signup? {
      NewToken(s, step.t);
      FreshIsNotLive(s.st, step.t, v);
    }
    hide StageOk, LiveOf, Unnamed, Stepped;
    if step.Pass? {
      SubsetSize(Unnamed(Stepped(s, step).st, v), Unnamed(s.st, v));
    } else {
      ShrinkOrOne(s, step, v);
    }
  }

  lemma ShrinkOrOne(s: Stage, step: Step, v: int)
    requires CanStep(s, step) && !step.Pass?
    requires step.Signup? ==> step.t !in Unnamed(s.st, v)
    ensures |UnnamedNext(s, step, v)| > |Unnamed(s.st, v)| <==> Grows(s, step, v)
    ensures |UnnamedNext(s, step, v)| <= |Unnamed(s.st, v)| + 1
  {
    LiveSplit(s.st, v);
    hide LiveOf, Unnamed, NamesLive;
  }

  // ---------- which growth is not taken back? ----------

  function Doomed(calls: map<nat, Pc>): set<Token> {
    set id | id in calls && Dooms(calls[id]) :: calls[id].t
  }

  /** The unnamed sessions of a user that no Logout under way is about to delete. */
  function Charged(s: Stage, v: int): set<Token> {
    Unnamed(s.st, v) - Doomed(s.calls)
  }

  /** The growth of the step is not taken back by its own call: a Login overwrites an entry that names a live session,
      or a Logout deletes one while it has no unnamed session of its own to end that is not ended already. */
  predicate Leaks(s: Stage, step: Step, v: int) {
    && step.Proceed? && step.id in s.calls && s.calls[step.id].u == v && NamesLive(s.st, v)
    && var pc := s.calls[step.id];
       pc.ToExec? || (pc.ToUnname? && Some(pc.t) != GetNamed(s.st, v) && pc.t !in Charged(s, v))
  }

  /** A call that goes on: its token is doomed from when it has deleted the entry. */
  lemma DoomedUpdate(calls: map<nat, Pc>, id: nat, pc: Pc)
    requires id in calls ==> calls[id].t == pc.t && (Dooms(calls[id]) ==> Dooms(pc))
    ensures Doomed(calls[id := pc]) == Doomed(calls) + if Dooms(pc) then {pc.t} else {}
  {
    var calls' := calls[id := pc];
    forall x | x in Doomed(calls)
      ensures x in Doomed(calls')
    {
      var j :| j in calls && Dooms(calls[j]) && calls[j].t == x;
      assert j in calls' && Dooms(calls'[j]) && calls'[j].t == x;
    }
    assert Dooms(pc) ==> id in calls' && calls'[id] == pc;
  }

  lemma DoomedRemove(calls: map<nat, Pc>, id: nat)
    requires id in calls
    ensures Doomed(calls - {id}) <= Doomed(calls)
    ensures if Dooms(calls[id]) then Doomed(calls) == Doomed(calls - {id}) + {calls[id].t}
            else Doomed(calls) == Doomed(calls - {id})
  {
    var calls' := calls - {id};
    forall x | x in Doomed(calls) && !(Dooms(calls[id]) && x == calls[id].t)
      ensures x in Doomed(calls')
    {
      var j :| j in calls && Dooms(calls[j]) && calls[j].t == x;
      assert j in calls' && calls'[j] == calls[j];
    }
  }

  lemma DoomedAfterStep(s: Stage, step: Step)
    requires CanStep(s, step)
    ensures var now, next := Doomed(s.calls), Doomed(Stepped(s, step).calls);
            if step.Proceed? && s.calls[step.id].ToUnname? then next == now + {s.calls[step.id].t}
            else if step.Proceed? && s.calls[step.id].ToEnd? then now == next + {s.calls[step.id].t}
            else next == now
  {
    hide Commanded, Registered, Later, Doomed, GetNamed, GetSession;
    match step
    case BeginLogin(id, u, name, t) => DoomedUpdate(s.calls, id, FirstLogin(s.st, u, name, t));
    case BeginLogout(id, t) =>
      if GetSession(s.st, t).Some? {
        DoomedUpdate(s.calls, id, ToUnname(GetSession(s.st, t).value.userId, t));
      }
    case Proceed(id) =>
      if s.calls[id].ToExec? || s.calls[id].ToEnd? {
        DoomedRemove(s.calls, id);
      } else {
        DoomedProceed(s.calls, id);
      }
    case _ =>
  }

  lemma DoomedProceed(calls: map<nat, Pc>, id: nat)
    requires id in calls && !calls[id].ToExec? && !calls[id].ToEnd?
    ensures Doomed(Continued(calls, id)) == Doomed(calls) + if calls[id].ToUnname? then {calls[id].t} else {}
  {
    DoomedUpdate(calls, id, Continued(calls, id)[id]);
    assert Dooms(calls[id]) ==> calls[id].t in Doomed(calls);
    hide Doomed;
  }

  lemma DoomedIsUnnamed(s: Stage, v: int)
    requires StageOk(s)
    ensures GetNamed(s.st, v).Some? ==> GetNamed(s.st, v).value !in Doomed(s.calls)
    ensures forall t | t in Doomed(s.calls) :: t in s.made
  {
    assert forall id | id in s.calls :: CallOk(s.st, s.users, s.made, s.calls[id]);
  }

  /** The charged sessions of a user become more, and then by one, exactly by a registration and
      in the leaking steps. */
  lemma ChargedGrowsExactly(s: Stage, step: Step, v: int)
    requires StageOk(s) && CanStep(s, step)
    ensures |Charged(Stepped(s, step), v)| > |Charged(s, v)| <==> (step.Signup? && step.u == v) || Leaks(s, step, v)
    ensures |Charged(Stepped(s, step), v)| <= |Charged(s, v)| + 1
  {
    UnnamedAfterStep(s, step, v);
    DoomedAfterStep(s, step);
    DoomedIsUnnamed(s, v);
    LiveSplit(s.st, v);
    if step.Signup? {
      NewToken(s, step.t);
      FreshIsNotLive(s.st, step.t, v);
    }
    hide StageOk, LiveOf, Unnamed, Stepped, Doomed, NamesLive, GetNamed;
    if step.Pass? {
      SubsetSize(Charged(Stepped(s, step), v), Charged(s, v));
    } else {
      ChargedShrinkOrOne(s, step, v, Doomed(Stepped(s, step).calls));
    }
  }

  /** The session that the user's entry names, if it is live. */
  function LiveName(st: Store, v: int): set<Token> {
    if NamesLive(st, v) then {GetNamed(st, v).value} else {}
  }

  lemma ChargedShrinkOrOne(s: Stage, step: Step, v: int, doomed: set<Token>)
    requires CanStep(s, step) && !step.Pass?
    requires step.Signup? ==> step.t !in Unnamed(s.st, v) && step.t !in Doomed(s.calls)
    requires GetNamed(s.st, v).Some? ==> GetNamed(s.st, v).value !in Doomed(s.calls)
    requires if step.Proceed? && s.calls[step.id].ToUnname? then doomed == Doomed(s.calls) + {s.calls[step.id].t}
             else if step.Proceed? && s.calls[step.id].ToEnd? then Doomed(s.calls) == doomed + {s.calls[step.id].t}
             else doomed == Doomed(s.calls)
    ensures |UnnamedNext(s, step, v) - doomed| > |Charged(s, v)| <==> (step.Signup? && step.u == v) || Leaks(s, step, v)
    ensures |UnnamedNext(s, step, v) - doomed| <= |Charged(s, v)| + 1
  {
    if step.Proceed? && s.calls[step.id].u == v && (s.calls[step.id].ToExec? || s.calls[step.id].ToUnname?) {
      EntryCharges(s, step.id, v, doomed);
      hide LiveOf, Unnamed, Doomed, Charged, Leaks;
    } else if step.Signup? {
      hide LiveOf, Unnamed, Doomed, Leaks, NamesLive, GetNamed;
      var next, now := UnnamedNext(s, step, v) - doomed, Charged(s, v);
      assert next == if step.u == v then now + {step.t} else now;
    } else {
      OtherCharges(s, step, v, doomed);
      hide LiveOf, Unnamed, Doomed, Charged, NamesLive, GetNamed, UnnamedNext;
    }
  }

  lemma OtherCharges(s: Stage, step: Step, v: int, doomed: set<Token>)
    requires CanStep(s, step) && !step.Pass? && !step.Signup?
    requires step.Proceed? && s.calls[step.id].u == v ==> !s.calls[step.id].ToExec? && !s.calls[step.id].ToUnname?
    requires if step.Proceed? && s.calls[step.id].ToEnd? then Doomed(s.calls) == doomed + {s.calls[step.id].t}
             else Doomed(s.calls) <= doomed
    ensures |UnnamedNext(s, step, v) - doomed| <= |Charged(s, v)|
  {
    hide LiveOf, Unnamed, Doomed;
    assert UnnamedNext(s, step, v) - doomed <= Charged(s, v);
    SubsetSize(UnnamedNext(s, step, v) - doomed, Charged(s, v));
  }

  lemma EntryCharges(s: Stage, id: nat, v: int, doomed: set<Token>)
    requires id in s.calls && s.calls[id].u == v && (s.calls[id].ToExec? || s.calls[id].ToUnname?)
    requires GetNamed(s.st, v).Some? ==> GetNamed(s.st, v).value !in Doomed(s.calls)
    requires doomed == Doomed(s.calls) + if s.calls[id].ToUnname? then {s.calls[id].t} else {}
    ensures |LiveOf(s.st, v) - doomed| > |Charged(s, v)| <==> Leaks(s, Proceed(id), v)
    ensures |LiveOf(s.st, v) - doomed| <= |Charged(s, v)| + 1
  {
    var pc, extra := s.calls[id], LiveName(s.st, v);
    LiveSplit(s.st, v);
    hide LiveOf, Unnamed, Doomed;
    var own: set<Token> := if pc.ToUnname? then {pc.t} else {};
    OneMore(Unnamed(s.st, v), Doomed(s.calls), extra, own);
    assert LiveOf(s.st, v) == Unnamed(s.st, v) + extra;
    assert own !! extra && own !! Charged(s, v) <==> !pc.ToUnname? || (pc.t !in extra && pc.t !in Charged(s, v));
  }

  /** Adding at most one session and taking away at most one makes one more exactly if one is added and
      the one taken away is neither it nor among the others. */
  lemma OneMore(unnamed: set<Token>, doomed: set<Token>, extra: set<Token>, own: set<Token>)
    requires extra !! unnamed && extra !! doomed && |extra| <= 1 && |own| <= 1
    ensures var now, next := unnamed - doomed, (unnamed + extra) - (doomed + own);
            && |next| <= |now| + 1
            && (|next| > |now| <==> extra != {} && own !! extra && own !! now)
  {
    var now, next := unnamed - doomed, (unnamed + extra) - (doomed + own);
    assert next == (now + extra) - own;
    assert |now + extra| == |now| + |extra|;
    assert |now + extra| == |next| + |(now + extra) * own|;
    SubsetSize((now + extra) * own, own);
    if own !! (now + extra) {
      assert (now + extra) * own == {};
    } else {
      assert |(now + extra) * own| > 0;
    }
  }

  // ---------- runs ----------

  ghost predicate IsInterleaving(stages: seq<Stage>, steps: seq<Step>) {
    && |stages| == |steps| + 1
    && forall i | 0 <= i < |steps| :: CanStep(stages[i], steps[i]) && stages[i + 1] == Stepped(stages[i], steps[i])
  }

  lemma {:induction false} RunKeepsOk(stages: seq<Stage>, steps: seq<Step>, k: nat)
    requires IsInterleaving(stages, steps) && StageOk(stages[0]) && k <= |steps|
    ensures StageOk(stages[k])
  {
    if k > 0 {
      RunKeepsOk(stages, steps, k - 1);
      StepKeepsOk(stages[k - 1], steps[k - 1]);
      hide StageOk, Stepped;
    }
  }

  lemma InterleavingOk(stages: seq<Stage>, steps: seq<Step>, k: nat)
    requires IsInterleaving(stages, steps) && stages[0] == START && k <= |steps|
    ensures StageOk(stages[k])
  {
    StartOk();
    RunKeepsOk(stages, steps, k);
  }

  /** How many of the steps from i to k leak a session of the user. */
  function Leaked(stages: seq<Stage>, steps: seq<Step>, i: nat, k: nat, v: int): nat
    requires i <= k <= |steps| && |stages| == |steps| + 1
  {
    if i == k then 0
    else Leaked(stages, steps, i, k - 1, v) + if Leaks(stages[k - 1], steps[k - 1], v) then 1 else 0
  }

  /** How many of the steps from i to k register the user. */
  function Signups(steps: seq<Step>, i: nat, k: nat, v: int): nat
    requires i <= k <= |steps|
  {
    if i == k then 0
    else Signups(steps, i, k - 1, v) + if steps[k - 1].Signup? && steps[k - 1].u == v then 1 else 0
  }

  /** In every interleaving the charged sessions of a user become more only by registrations and leaks. */
  lemma {:induction false} ChargedGrowByLeaks(stages: seq<Stage>, steps: seq<Step>, i: nat, k: nat, v: int)
    requires IsInterleaving(stages, steps) && stages[0] == START && i <= k <= |steps|
    ensures |Charged(stages[k], v)|
         <= |Charged(stages[i], v)| + Signups(steps, i, k, v) + Leaked(stages, steps, i, k, v)
  {
    hide StageOk, Charged, Leaks, Stepped, CanStep;
    if i < k {
      ChargedGrowByLeaks(stages, steps, i, k - 1, v);
      InterleavingOk(stages, steps, k - 1);
      ChargedGrowsExactly(stages[k - 1], steps[k - 1], v);
    }
  }

  /** In every interleaving, a user never has more charged sessions than registrations and leaks. */
  lemma ChargedBound(stages: seq<Stage>, steps: seq<Step>, k: nat, v: int)
    requires IsInterleaving(stages, steps) && stages[0] == START && k <= |steps|
    ensures |Charged(stages[k], v)| <= Signups(steps, 0, k, v) + Leaked(stages, steps, 0, k, v)
  {
    assert Charged(START, v) == {};
    hide IsInterleaving, Charged;
    ChargedGrowByLeaks(stages, steps, 0, k, v);
  }

  /** With no Logout of the user under way, the charged sessions are the unnamed ones. */
  lemma QuietSizes(s: Stage, v: int)
    requires Doomed(s.calls) !! LiveOf(s.st, v)
    ensures Charged(s, v) == Unnamed(s.st, v)
    ensures |LiveOf(s.st, v)| <= |Unnamed(s.st, v)| + 1
  {
    LiveSplit(s.st, v);
    assert Unnamed(s.st, v) <= LiveOf(s.st, v);
    hide LiveOf, Unnamed, Doomed, NamesLive;
  }

  /** The session bound for every interleaving: without a leak, and with no Logout of the user under way, there are
      no more sessions that no Login would revoke than there were registrations, and at most one more in all. */
  lemma BoundUnlessLeaked(stages: seq<Stage>, steps: seq<Step>, k: nat, v: int)
    requires IsInterleaving(stages, steps) && stages[0] == START && k <= |steps|
    requires forall i | 0 <= i < k :: !Leaks(stages[i], steps[i], v)
    requires Doomed(stages[k].calls) !! LiveOf(stages[k].st, v)
    ensures |Unnamed(stages[k].st, v)| <= Signups(steps, 0, k, v)
    ensures |LiveOf(stages[k].st, v)| <= Signups(steps, 0, k, v) + 1
  {
    NoLeaks(stages, steps, 0, k, v);
    hide LiveOf, Unnamed, Doomed, Charged, Leaks, IsInterleaving;
    ChargedBound(stages, steps, k, v);
    QuietSizes(stages[k], v);
  }

  /** A user who has no such session at one moment has, without a leak and without another registration, at most one
      session at every later moment with no Logout of the user under way. */
  lemma OneSessionUnlessLeaked(stages: seq<Stage>, steps: seq<Step>, i: nat, k: nat, v: int)
    requires IsInterleaving(stages, steps) && stages[0] == START && i <= k <= |steps|
    requires Unnamed(stages[i].st, v) == {} && Signups(steps, i, k, v) == 0
    requires forall j | i <= j < k :: !Leaks(stages[j], steps[j], v)
    requires Doomed(stages[k].calls) !! LiveOf(stages[k].st, v)
    ensures |LiveOf(stages[k].st, v)| <= 1
  {
    assert Charged(stages[i], v) == {};
    NoLeaks(stages, steps, i, k, v);
    hide LiveOf, Unnamed, Doomed, Charged, Leaks, IsInterleaving;
    ChargedGrowByLeaks(stages, steps, i, k, v);
    QuietSizes(stages[k], v);
  }

  lemma {:induction false} NoLeaks(stages: seq<Stage>, steps: seq<Step>, i: nat, k: nat, v: int)
    requires i <= k <= |steps| && |stages| == |steps| + 1
    requires forall j | i <= j < k :: !Leaks(stages[j], steps[j], v)
    ensures Leaked(stages, steps, i, k, v) == 0
  {
    if i < k {
      NoLeaks(stages, steps, i, k - 1, v);
    }
  }

  // ---------- calls that nothing interrupts ----------

  function LoginSteps(st: Store, id: nat, u: int, name: string, t: Token): seq<Step> {
    if FirstLogin(st, u, name, t).ToRevoke? then [BeginLogin(id, u, name, t), Proceed(id), Proceed(id)]
    else [BeginLogin(id, u, name, t), Proceed(id)]
  }

  function LogoutSteps(st: Store, id: nat, t: Token): seq<Step> {
    if GetSession(st, t).Some? then [BeginLogout(id, t), Proceed(id), Proceed(id), Proceed(id)]
    else [BeginLogout(id, t)]
  }

  /** The commands of one Login in a row are the whole Login, and its last one overwrites no live entry. */
  lemma UninterruptedLogin(stages: seq<Stage>, id: nat, u: int, name: string, t: Token)
    requires |stages| > 0 && IsInterleaving(stages, LoginSteps(stages[0].st, id, u, name, t))
    ensures stages[|stages| - 1].st == LoggedIn(stages[0].st, u, name, t)
    ensures stages[|stages| - 1].calls == stages[0].calls
    ensures "" !in stages[0].st.sessions ==> !NamesLive(stages[|stages| - 2].st, u)
  {
    var steps := LoginSteps(stages[0].st, id, u, name, t);
    assert CanStep(stages[0], steps[0]) && stages[1] == Stepped(stages[0], steps[0]);
    assert CanStep(stages[1], steps[1]) && stages[2] == Stepped(stages[1], steps[1]);
    if |steps| > 2 {
      assert CanStep(stages[2], steps[2]) && stages[3] == Stepped(stages[2], steps[2]);
    }
    hide IsInterleaving, PutNamedSession;
  }

  lemma UninterruptedLogout(stages: seq<Stage>, id: nat, t: Token)
    requires |stages| > 0 && IsInterleaving(stages, LogoutSteps(stages[0].st, id, t))
    ensures stages[|stages| - 1].st == LoggedOut(stages[0].st, t)
    ensures stages[|stages| - 1].calls == stages[0].calls
  {
    var steps := LogoutSteps(stages[0].st, id, t);
    assert CanStep(stages[0], steps[0]) && stages[1] == Stepped(stages[0], steps[0]);
    if |steps| > 1 {
      assert CanStep(stages[1], steps[1]) && stages[2] == Stepped(stages[1], steps[1]);
      assert CanStep(stages[2], steps[2]) && stages[3] == Stepped(stages[2], steps[2]);
      assert CanStep(stages[3], steps[3]) && stages[4] == Stepped(stages[3], steps[3]);
    }
    hide IsInterleaving;
  }

  // ---------- two overlaps ----------

  /** Two Logins that both GET before either EXECs. */
  function OverlapSteps(a: nat, b: nat, u: int, name: string, t1: Token, t2: Token): seq<Step> {
    [BeginLogin(a, u, name, t1), BeginLogin(b, u, name, t2), Proceed(a), Proceed(b)]
  }

  /** A Login between the HGETALL and the deletions of a Logout. */
  function AroundSteps(a: nat, b: nat, u: int, name: string, told: Token, t: Token): seq<Step> {
    [BeginLogout(a, told), BeginLogin(b, u, name, t), Proceed(b), Proceed(b), Proceed(a), Proceed(a), Proceed(a)]
  }

  /** From any stage in which the user has no live entry there is this run: the first of the two sessions stays
      alive, and no later Login revokes it. */
  lemma OverlappingLoginsRun(s: Stage, a: nat, b: nat, u: int, name: string, t1: Token, t2: Token)
    returns (stages: seq<Stage>)
    requires StageOk(s) && a !in s.calls && b !in s.calls && a != b && u in s.users && GetNamed(s.st, u) == None
    requires t1 != "" && t2 != "" && t1 != t2 && t1 !in s.made && t2 !in s.made
    ensures |stages| == 5 && IsInterleaving(stages, OverlapSteps(a, b, u, name, t1, t2)) && stages[0] == s
    ensures LiveOf(stages[4].st, u) == Unnamed(s.st, u) + {t1, t2}
    ensures Unnamed(stages[4].st, u) == Unnamed(s.st, u) + {t1}
    ensures Leaks(stages[3], Proceed(b), u) && stages[4].calls == s.calls
  {
    hide StageOk, LiveOf, Unnamed, NamesLive, PutNamedSession;
    NewToken(s, t1);
    NewToken(s, t2);
    stages := OverlapStages(s, a, b, u, name, t1, t2);
    OverlapStores(s.st, u, name, t1, t2);
    hide IsInterleaving;
  }

  lemma OverlapStages(s: Stage, a: nat, b: nat, u: int, name: string, t1: Token, t2: Token)
    returns (stages: seq<Stage>)
    requires a !in s.calls && b !in s.calls && a != b && u in s.users && GetNamed(s.st, u) == None
    requires t1 != "" && t2 != "" && t1 != t2 && t1 !in s.made && t2 !in s.made
    ensures |stages| == 5 && IsInterleaving(stages, OverlapSteps(a, b, u, name, t1, t2)) && stages[0] == s
    ensures stages[3].st == PutNamedSession(s.st, t1, Session(u, name))
        && stages[3].calls == s.calls[b := ToExec(u, name, t2)]
    ensures stages[4].st == PutNamedSession(stages[3].st, t2, Session(u, name)) && stages[4].calls == s.calls
  {
    hide PutNamedSession;
    var steps := OverlapSteps(a, b, u, name, t1, t2);
    var s1 := Stepped(s, steps[0]);
    var s2 := Stepped(s1, steps[1]);
    var s3 := Stepped(s2, steps[2]);
    var s4 := Stepped(s3, steps[3]);
    assert s3.calls == s.calls[b := ToExec(u, name, t2)] && s4.calls == s.calls;
    stages := [s, s1, s2, s3, s4];
  }

  lemma OverlapStores(st: Store, u: int, name: string, t1: Token, t2: Token)
    requires GetNamed(st, u) == None && t1 != t2
    requires FreshToken(st, t1) && Nameless(st, t1) && FreshToken(st, t2) && Nameless(st, t2)
    ensures var mid := PutNamedSession(st, t1, Session(u, name)); var end := PutNamedSession(mid, t2, Session(u, name));
            && NamesLive(mid, u) && LiveOf(end, u) == Unnamed(st, u) + {t1, t2}
            && Unnamed(end, u) == Unnamed(st, u) + {t1}
  {
    var mid := PutNamedSession(st, t1, Session(u, name));
    LiveSplit(st, u);
    ExecEffect(st, u, name, t1, u);
    ExecEffect(mid, u, name, t2, u);
    assert GetNamed(mid, u) == Some(t1);
    hide LiveOf, Unnamed, PutNamedSession;
  }

  lemma JoinRuns(x: seq<Stage>, p: seq<Step>, y: seq<Stage>, q: seq<Step>)
    requires IsInterleaving(x, p) && IsInterleaving(y, q) && x[|p|] == y[0]
    ensures var z := x + y[1..];
            IsInterleaving(z, p + q) && z[0] == x[0] && z[|p| + |q|] == y[|q|]
            && forall i | 0 <= i <= |p| :: z[i] == x[i]
  {
    hide CanStep, Stepped;
    var z := x + y[1..];
    forall i | 0 <= i < |p + q|
      ensures CanStep(z[i], (p + q)[i]) && z[i + 1] == Stepped(z[i], (p + q)[i])
    {
      if i >= |p| {
        assert z[i] == y[i - |p|] && z[i + 1] == y[i + 1 - |p|];
      }
    }
  }

  /** From any stage in which a Logout finds the session that the user's entry names there is this run: the
      session of the Login in between stays alive without an entry. */
  lemma LoginWithinLogoutRun(s: Stage, a: nat, b: nat, u: int, name: string, told: Token, t: Token)
    returns (stages: seq<Stage>)
    requires StageOk(s) && a !in s.calls && b !in s.calls && a != b && u in s.users
    requires GetNamed(s.st, u) == Some(told) && GetSession(s.st, told).Some?
    requires t != "" && t !in s.made
    ensures |stages| == 8 && IsInterleaving(stages, AroundSteps(a, b, u, name, told, t)) && stages[0] == s
    ensures GetNamed(stages[7].st, u) == None && stages[7].calls == s.calls
    ensures LiveOf(stages[7].st, u) == Unnamed(stages[7].st, u) == Unnamed(s.st, u) + {t}
    ensures Leaks(stages[4], Proceed(a), u)
    ensures stages[7].users == s.users && stages[7].made == s.made[t := u] && StageOk(stages[7])
  {
    hide StageOk, LiveOf, Unnamed, NamesLive, PutNamedSession, DelSession, DelNamed, DelServer, Doomed;
    EntryIsOwn(s, u);
    NewToken(s, t);
    var first := LoginAfterFirst(s, a, b, u, name, told, t);
    var last := DeletionsAfter(first[4], a, u, told);
    RunKeepsOk(first, AroundSteps(a, b, u, name, told, t)[..4], 4);
    RunKeepsOk(last, [Proceed(a), Proceed(a), Proceed(a)], 3);
    JoinRuns(first, AroundSteps(a, b, u, name, told, t)[..4], last, [Proceed(a), Proceed(a), Proceed(a)]);
    stages := first + last[1..];
    AroundStores(s.st, u, name, told, t);
    hide LoginStore, LogoutStore, IsInterleaving;
    assert AroundSteps(a, b, u, name, told, t)[..4] + [Proceed(a), Proceed(a), Proceed(a)]
        == AroundSteps(a, b, u, name, told, t);
    assert (s.calls[a := ToUnname(u, told)]) - {a} == s.calls;
  }

  lemma LoginAfterFirst(s: Stage, a: nat, b: nat, u: int, name: string, told: Token, t: Token)
    returns (stages: seq<Stage>)
    requires a !in s.calls && b !in s.calls && a != b && u in s.users && t != "" && t !in s.made && told != ""
    requires GetNamed(s.st, u) == Some(told) && GetSession(s.st, told).Some? && GetSession(s.st, told).value.userId == u
    ensures |stages| == 5 && IsInterleaving(stages, AroundSteps(a, b, u, name, told, t)[..4]) && stages[0] == s
    ensures stages[4] == Stage(LoginStore(s.st, u, name, told, t), s.users, s.made[t := u],
                               s.calls[a := ToUnname(u, told)])
  {
    hide PutNamedSession, DelSession, DelNamed, DelServer;
    var steps := AroundSteps(a, b, u, name, told, t);
    var s1 := Stepped(s, steps[0]);
    var s2 := Stepped(s1, steps[1]);
    var s3 := Stepped(s2, steps[2]);
    var s4 := Stepped(s3, steps[3]);
    assert s4.calls == s.calls[a := ToUnname(u, told)];
    stages := [s, s1, s2, s3, s4];
  }

  lemma DeletionsAfter(s: Stage, a: nat, u: int, told: Token) returns (stages: seq<Stage>)
    requires a in s.calls && s.calls[a] == ToUnname(u, told)
    ensures |stages| == 4 && IsInterleaving(stages, [Proceed(a), Proceed(a), Proceed(a)]) && stages[0] == s
    ensures stages[3] == Stage(LogoutStore(s.st, u, told), s.users, s.made, s.calls - {a})
  {
    hide PutNamedSession, DelSession, DelNamed, DelServer;
    var s1 := Stepped(s, Proceed(a));
    var s2 := Stepped(s1, Proceed(a));
    var s3 := Stepped(s2, Proceed(a));
    assert s3.calls == s.calls - {a};
    stages := [s, s1, s2, s3];
  }

  /** The store after the Login, and after the deletions of the Logout. */
  function LoginStore(st: Store, u: int, name: string, told: Token, t: Token): Store {
    PutNamedSession(DelSession(st, told), t, Session(u, name))
  }

  function LogoutStore(st: Store, u: int, told: Token): Store {
    DelSession(DelServer(DelNamed(st, u), u), told)
  }

  lemma AroundStores(st: Store, u: int, name: string, told: Token, t: Token)
    requires GetNamed(st, u) == Some(told) && told in LiveOf(st, u) && FreshToken(st, t) && Nameless(st, t)
    ensures var mid := LoginStore(st, u, name, told, t); var end := LogoutStore(mid, u, told);
            && NamesLive(mid, u) && GetNamed(mid, u) == Some(t) && told != t && told !in Unnamed(mid, u)
            && GetNamed(end, u) == None && LiveOf(end, u) == Unnamed(end, u) == Unnamed(st, u) + {t}
  {
    var first := DelSession(st, told);
    var mid := LoginStore(st, u, name, told, t);
    LiveSplit(st, u);
    DelSessionEffect(st, told, u);
    ExecEffect(first, u, name, t, u);
    DelNamedEffect(mid, u, u);
    DelServerEffect(DelNamed(mid, u), u, u);
    DelSessionEffect(DelServer(DelNamed(mid, u), u), told, u);
    assert t !in LiveOf(st, u) && GetNamed(mid, u) == Some(t);
    hide LiveOf, Unnamed, PutNamedSession, DelSession;
  }

  lemma EntryIsOwn(s: Stage, u: int)
    requires StageOk(s) && GetNamed(s.st, u).Some? && GetSession(s.st, GetNamed(s.st, u).value).Some?
    ensures var t := GetNamed(s.st, u).value; GetSession(s.st, t).value.userId == u && t != "" && t in LiveOf(s.st, u)
  {
    assert EntryOk(s.st, s.made, u);
  }

  lemma FirstSignup() returns (s: Stage)
    ensures IsInterleaving([START, s], [Signup(1, "u", "r")]) && StageOk(s)
    ensures s.users == {1} && s.made == map["r" := 1] && s.calls == map[] && GetNamed(s.st, 1) == None
    ensures Unnamed(s.st, 1) == {"r"}
  {
    StartOk();
    s := Stepped(START, Signup(1, "u", "r"));
    StepKeepsOk(START, Signup(1, "u", "r"));
    SignupEffect(EMPTY, 1, "u", "r", 1);
    assert Unnamed(EMPTY, 1) == {};
    hide StageOk, Unnamed, LiveOf;
  }

  lemma SecondSignup() returns (s1: Stage, s2: Stage)
    ensures IsInterleaving([START, s1, s2], [Signup(1, "u", "r"), Signup(1, "u", "q")]) && StageOk(s2)
    ensures s2.users == {1} && s2.made == map["r" := 1, "q" := 1] && s2.calls == map[] && GetNamed(s2.st, 1) == None
    ensures Unnamed(s2.st, 1) == LiveOf(s2.st, 1) == {"r", "q"}
  {
    s1 := FirstSignup();
    s2 := Stepped(s1, Signup(1, "u", "q"));
    StepKeepsOk(s1, Signup(1, "u", "q"));
    NewToken(s1, "q");
    SignupEffect(s1.st, 1, "u", "q", 1);
    LiveSplit(s2.st, 1);
    hide StageOk, Unnamed, LiveOf;
  }

  /** Two calls of Register for one name overlap, and a Login follows: three live sessions without a leak. */
  lemma ThreeSessionsByRegisters() returns (stages: seq<Stage>, steps: seq<Step>)
    ensures IsInterleaving(stages, steps) && stages[0] == START && stages[|steps|].calls == map[]
    ensures forall i | 0 <= i < |steps| :: !Leaks(stages[i], steps[i], 1)
    ensures LiveOf(stages[|steps|].st, 1) == {"r", "q", "a"} && Unnamed(stages[|steps|].st, 1) == {"r", "q"}
  {
    hide StageOk, LiveOf, Unnamed, Commanded;
    var s1, s2 := SecondSignup();
    var run := SoloLogin(s2, 0, 1, "u", "a");
    var p, q := [Signup(1, "u", "r"), Signup(1, "u", "q")], [BeginLogin(0, 1, "u", "a"), Proceed(0)];
    assert !Leaks(run[1], q[1], 1);
    hide Leaks;
    JoinRuns([START, s1, s2], p, run, q);
    stages, steps := [START, s1, s2] + run[1..], p + q;
    hide IsInterleaving;
  }

  /** A user registers and logs in twice at the same time, and has three live sessions. */
  lemma ThreeSessionsByLogins() returns (stages: seq<Stage>, steps: seq<Step>)
    ensures IsInterleaving(stages, steps) && stages[0] == START && stages[|steps|].calls == map[]
    ensures LiveOf(stages[|steps|].st, 1) == {"r", "a", "b"} && Unnamed(stages[|steps|].st, 1) == {"r", "a"}
  {
    hide StageOk, LiveOf, Unnamed, Leaks, IsInterleaving;
    var s := FirstSignup();
    var run := OverlappingLoginsRun(s, 0, 1, 1, "u", "a", "b");
    steps := [Signup(1, "u", "r")] + OverlapSteps(0, 1, 1, "u", "a", "b");
    JoinRuns([START, s], [Signup(1, "u", "r")], run, OverlapSteps(0, 1, 1, "u", "a", "b"));
    stages := [START, s] + run[1..];
  }

  lemma SoloLogin(s: Stage, id: nat, u: int, name: string, t: Token) returns (stages: seq<Stage>)
    requires StageOk(s) && id !in s.calls && u in s.users && GetNamed(s.st, u) == None && t != "" && t !in s.made
    ensures |stages| == 3 && IsInterleaving(stages, [BeginLogin(id, u, name, t), Proceed(id)]) && stages[0] == s
    ensures StageOk(stages[2]) && stages[2].users == s.users && stages[2].made == s.made[t := u]
    ensures stages[2].calls == s.calls && GetNamed(stages[2].st, u) == Some(t)
    ensures GetSession(stages[2].st, t) == Some(Session(u, name))
    ensures LiveOf(stages[2].st, u) == LiveOf(s.st, u) + {t} && Unnamed(stages[2].st, u) == LiveOf(s.st, u)
  {
    var s1 := Stepped(s, BeginLogin(id, u, name, t));
    var s2 := Stepped(s1, Proceed(id));
    StepKeepsOk(s, BeginLogin(id, u, name, t));
    StepKeepsOk(s1, Proceed(id));
    NewToken(s, t);
    ExecEffect(s.st, u, name, t, u);
    assert s2.calls == s.calls;
    stages := [s, s1, s2];
    hide StageOk, LiveOf, Unnamed;
  }

  /** A user registers, logs in, and logs in again while logging out; one more Login makes three live sessions. */
  lemma ThreeSessionsByLogout() returns (stages: seq<Stage>, steps: seq<Step>)
    ensures IsInterleaving(stages, steps) && stages[0] == START && stages[|steps|].calls == map[]
    ensures LiveOf(stages[|steps|].st, 1) == {"r", "b", "c"} && Unnamed(stages[|steps|].st, 1) == {"r", "b"}
  {
    hide StageOk, LiveOf, Unnamed, Leaks, IsInterleaving;
    var s := FirstSignup();
    LiveSplit(s.st, 1);
    var p0, p1 := [Signup(1, "u", "r")], [BeginLogin(0, 1, "u", "a"), Proceed(0)];
    var p2, p3 := AroundSteps(1, 2, 1, "u", "a", "b"), [BeginLogin(3, 1, "u", "c"), Proceed(3)];
    var y1 := SoloLogin(s, 0, 1, "u", "a");
    var y2 := LoginWithinLogoutRun(y1[2], 1, 2, 1, "u", "a", "b");
    var y3 := SoloLogin(y2[7], 3, 1, "u", "c");
    JoinRuns([START, s], p0, y1, p1);
    var z1 := [START, s] + y1[1..];
    JoinRuns(z1, p0 + p1, y2, p2);
    var z2 := z1 + y2[1..];
    JoinRuns(z2, p0 + p1 + p2, y3, p3);
    stages, steps := z2 + y3[1..], p0 + p1 + p2 + p3;
  }

  // ---------- how long a token is worth something ----------

  /** The command that writes the session of a new token. */
  predicate Opens(s: Stage, step: Step, u: int, name: string, t: Token) {
    step == Signup(u, name, t) || (step.Proceed? && step.id in s.calls && s.calls[step.id] == ToExec(u, name, t))
  }

  /** The DEL of a Login that has read the token in the entry, or of a Logout with the token. */
  predicate Deletes(s: Stage, step: Step, t: Token) {
    step.Proceed? && step.id in s.calls
    && match s.calls[step.id]
       case ToRevoke(_, _, _, read) => read == t
       case ToEnd(_, t') => t' == t
       case _ => false
  }

  ghost predicate Deleted(stages: seq<Stage>, steps: seq<Step>, i: nat, k: nat, t: Token)
    requires k <= |steps| && |stages| == |steps| + 1
  {
    exists j :: i < j < k && Deletes(stages[j], steps[j], t)
  }

  function Passed(steps: seq<Step>, i: nat, k: nat): nat
    requires i <= k <= |steps|
  {
    if i == k then 0 else Passed(steps, i, k - 1) + if steps[k - 1].Pass? then steps[k - 1].seconds else 0
  }

  /** The token has been made, and no Login is about to write it. */
  ghost predicate Settled(s: Stage, t: Token) {
    t in s.made && forall id | id in s.calls && Entering(s.calls[id]) :: s.calls[id].t != t
  }

  lemma OpeningLasts(s: Stage, step: Step, u: int, name: string, t: Token)
    requires StageOk(s) && CanStep(s, step) && Opens(s, step, u, name, t)
    ensures var s' := Stepped(s, step);
            s'.st.now == s.st.now && Settled(s', t) && Lasts(s'.st, t, Session(u, name), s.st.now + 86400, false)
  {
    assert forall id | id in s.calls :: CallOk(s.st, s.users, s.made, s.calls[id]);
    hide StoreOk, CallOk;
  }

  lemma SettledStays(s: Stage, step: Step, t: Token)
    requires StageOk(s) && CanStep(s, step) && Settled(s, t)
    ensures Settled(Stepped(s, step), t)
  {
    hide StoreOk, CallsApart, CallsOk, Commanded;
  }

  lemma OneMoreLasts(s: Stage, step: Step, t: Token, session: Session, deadline: nat, revoked: bool)
    requires CanStep(s, step) && Settled(s, t) && Lasts(s.st, t, session, deadline, revoked)
    ensures var s' := Stepped(s, step);
            && s'.st.now == s.st.now + (if step.Pass? then step.seconds else 0)
            && Lasts(s'.st, t, session, deadline, revoked || Deletes(s, step, t))
  {
    assert step.Proceed? && Entering(s.calls[step.id]) ==> s.calls[step.id].t != t;
    hide Settled, Continued, FirstLogin;
  }

  lemma {:induction false} TokenLasts(stages: seq<Stage>, steps: seq<Step>, i: nat, k: nat,
                                      u: int, name: string, t: Token)
    requires IsInterleaving(stages, steps) && StageOk(stages[0]) && i < k <= |steps|
    requires Opens(stages[i], steps[i], u, name, t)
    ensures Settled(stages[k], t) && stages[k].st.now == stages[i].st.now + Passed(steps, i + 1, k)
    ensures Lasts(stages[k].st, t, Session(u, name), stages[i].st.now + 86400, Deleted(stages, steps, i, k, t))
  {
    hide StageOk, Stepped, CanStep, Lasts, Settled, Opens, Deletes;
    RunKeepsOk(stages, steps, k - 1);
    var s, step := stages[k - 1], steps[k - 1];
    if i + 1 == k {
      OpeningLasts(s, step, u, name, t);
    } else {
      TokenLasts(stages, steps, i, k - 1, u, name, t);
      SettledStays(s, step, t);
      var before := Deleted(stages, steps, i, k - 1, t);
      OneMoreLasts(s, step, t, Session(u, name), stages[i].st.now + 86400, before);
      assert Deleted(stages, steps, i, k, t) <==> before || Deletes(s, step, t);
    }
  }

  /** In every interleaving: from the command that writes its session on, a token is accepted as its user, if and only
      if fewer than 86400 seconds have passed and no Login or Logout has deleted it. */
  lemma AcceptedExactly(stages: seq<Stage>, steps: seq<Step>, i: nat, k: nat, u: int, name: string, t: Token)
    requires IsInterleaving(stages, steps) && StageOk(stages[0]) && i < k <= |steps|
    requires Opens(stages[i], steps[i], u, name, t)
    ensures GetSession(stages[k].st, t)
         == if Passed(steps, i + 1, k) < 86400 && !Deleted(stages, steps, i, k, t) then Some(Session(u, name)) else None
  {
    TokenLasts(stages, steps, i, k, u, name, t);
    hide IsInterleaving, StageOk, Passed, Deleted, Opens, Settled;
  }
}
