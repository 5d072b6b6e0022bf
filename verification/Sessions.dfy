/** Login sessions: Register, Login and Logout of logic/rpc.go as whole calls, with keys that expire. */
module Sessions {
  import opened Options
  import opened Redis

  /** The Redis part of Register. */
  function Registered(st: Store, u: int, name: string, t: Token): Store {
    PutSession(st, t, Session(u, name))
  }

  /** Login's deletion of the session that the user's sess_map_ entry names. */
  function Revoked(st: Store, u: int): Store {
    match GetNamed(st, u)
    case Some(t) => if t != "" then DelSession(st, t) else st
    case None => st
  }

  /** The Redis part of Login. */
  function LoggedIn(st: Store, u: int, name: string, t: Token): Store {
    PutNamedSession(Revoked(st, u), t, Session(u, name))
  }

  function LoggedOut(st: Store, t: Token): Store {
    match GetSession(st, t)
    case Some(session) => DelSession(DelServer(DelNamed(st, session.userId), session.userId), t)
    case None => st
  }

  /** The live sessions of a user. */
  function LiveOf(st: Store, u: int): set<Token> {
    set t | t in st.sessions && Live(st.sessions, t, st.now) && st.sessions[t].value.userId == u
  }

  /** Those that the user's sess_map_ entry does not name: no Login will revoke them. */
  function Unnamed(st: Store, u: int): set<Token> {
    set t | t in LiveOf(st, u) && GetNamed(st, u) != Some(t)
  }

  ghost predicate NameOk(st: Store, u: int)
    requires u in st.sessMap
  {
    var t := st.sessMap[u].value;
    t in st.sessions && st.sessions[t].value.userId == u && st.sessions[t].deadline == st.sessMap[u].deadline
  }

  /** Every sess_map_ entry names a session of its user, and expires with it. */
  ghost predicate Inv(st: Store) {
    && "" !in st.sessions
    && forall u | u in st.sessMap :: NameOk(st, u)
  }

  predicate FreshToken(st: Store, t: Token) { t != "" && t !in st.sessions }

  lemma NamedIsLive(st: Store, u: int)
    requires Inv(st) && GetNamed(st, u).Some?
    ensures var t := GetNamed(st, u).value; t in LiveOf(st, u) && t != ""
  {
    assert NameOk(st, u);
  }

  lemma LiveIsUnnamedOrNamed(st: Store, u: int)
    requires Inv(st)
    ensures LiveOf(st, u) == Unnamed(st, u) + (if GetNamed(st, u).Some? then {GetNamed(st, u).value} else {})
    ensures |LiveOf(st, u)| == |Unnamed(st, u)| + if GetNamed(st, u).Some? then 1 else 0
  {
    if GetNamed(st, u).Some? {
      NamedIsLive(st, u);
    }
  }

  lemma LiveAfterPut(st: Store, t: Token, s: Session, u: int)
    requires FreshToken(st, t)
    ensures LiveOf(PutSession(st, t, s), u) == LiveOf(st, u) + if u == s.userId then {t} else {}
  {
  }

  lemma LiveAfterDel(st: Store, t: Token, u: int)
    ensures LiveOf(DelSession(st, t), u) == LiveOf(st, u) - {t}
  {
  }

  // ---------- Register ----------

  /** Register adds one session that no entry names. */
  lemma RegisterEffect(st: Store, u: int, name: string, t: Token, v: int)
    requires Inv(st) && FreshToken(st, t)
    ensures var st' := Registered(st, u, name, t);
            && Inv(st')
            && LiveOf(st', v) == LiveOf(st, v) + (if v == u then {t} else {})
            && Unnamed(st', v) == Unnamed(st, v) + if v == u then {t} else {}
  {
    var st' := Registered(st, u, name, t);
    LiveAfterPut(st, t, Session(u, name), v);
    forall w | w in st'.sessMap
      ensures NameOk(st', w) && st'.sessMap[w].value != t
    {
      assert NameOk(st, w);
    }
    hide LiveOf;
  }

  // ---------- Login ----------

  lemma RevokeEffect(st: Store, u: int, v: int)
    requires Inv(st)
    ensures var st' := Revoked(st, u);
            && (forall w | w in st'.sessMap && w != u :: NameOk(st', w))
            && LiveOf(st', v) == if v == u then Unnamed(st, u) else LiveOf(st, v)
  {
    var st' := Revoked(st, u);
    if GetNamed(st, u).Some? {
      var t := GetNamed(st, u).value;
      NamedIsLive(st, u);
      LiveAfterDel(st, t, v);
      forall w | w in st'.sessMap && w != u
        ensures NameOk(st', w)
      {
        assert NameOk(st, w) && NameOk(st, u);
      }
    } else {
      forall w | w in st'.sessMap && w != u
        ensures NameOk(st', w)
      {
        assert NameOk(st, w);
      }
    }
  }

  /** Login revokes exactly the session that was named: the unnamed ones live on, beside the new one. */
  lemma LoginEffect(st: Store, u: int, name: string, t: Token, v: int)
    requires Inv(st) && FreshToken(st, t)
    ensures var st' := LoggedIn(st, u, name, t);
            && Inv(st')
            && LiveOf(st', v) == (if v == u then Unnamed(st, u) + {t} else LiveOf(st, v))
            && Unnamed(st', v) == Unnamed(st, v)
            && GetNamed(st', v) == if v == u then Some(t) else GetNamed(st, v)
  {
    var mid := Revoked(st, u);
    var st' := LoggedIn(st, u, name, t);
    RevokeEffect(st, u, v);
    assert FreshToken(mid, t) && mid.sessMap == st.sessMap && mid.now == st.now;
    hide Revoked;
    LiveAfterPut(mid, t, Session(u, name), v);
    assert LiveOf(st', v) == LiveOf(PutSession(mid, t, Session(u, name)), v);
    forall w | w in st'.sessMap
      ensures NameOk(st', w)
    {
      assert w != u ==> NameOk(mid, w);
    }
    assert t !in LiveOf(st, v);
    hide LiveOf;
  }

  // ---------- Logout ----------

  /** Logout ends the session of its token, and whichever session was named is named no more. */
  lemma LogoutEffect(st: Store, t: Token, v: int)
    requires Inv(st)
    ensures var st', mine := LoggedOut(st, t), t in LiveOf(st, v);
            && Inv(st')
            && LiveOf(st', v) == LiveOf(st, v) - {t}
            && GetNamed(st', v) == (if mine then None else GetNamed(st, v))
            && Unnamed(st', v) == if mine then LiveOf(st, v) - {t} else Unnamed(st, v)
  {
    var st' := LoggedOut(st, t);
    forall w | w in st'.sessMap
      ensures NameOk(st', w)
    {
      assert NameOk(st, w);
    }
  }

  /** Neither the unnamed sessions nor the live ones become more. */
  lemma LogoutShrinks(st: Store, t: Token, v: int)
    requires Inv(st)
    ensures |Unnamed(LoggedOut(st, t), v)| <= |Unnamed(st, v)|
    ensures |LiveOf(LoggedOut(st, t), v)| == |LiveOf(st, v)| - if t in LiveOf(st, v) then 1 else 0
  {
    LogoutEffect(st, t, v);
    LiveIsUnnamedOrNamed(st, v);
    hide LiveOf, Unnamed;
  }

  // ---------- expiry ----------

  function Later(st: Store, seconds: nat): Store { st.(now := st.now + seconds) }

  /** Time alone never makes a session unnamed: an entry and its session expire together. */
  lemma ExpiryEffect(st: Store, seconds: nat, v: int)
    requires Inv(st)
    ensures var st' := Later(st, seconds);
            Inv(st') && LiveOf(st', v) <= LiveOf(st, v) && Unnamed(st', v) <= Unnamed(st, v)
  {
    var st' := Later(st, seconds);
    forall w | w in st'.sessMap
      ensures NameOk(st', w) && NameOk(st, w)
    {
      assert NameOk(st, w);
    }
  }

  // ---------- runs ----------

  datatype Event =
    | Register(u: int, name: string, t: Token)
    | Login(u: int, name: string, t: Token)
    | Logout(t: Token)
    | Wait(seconds: nat)

  datatype State = State(st: Store, users: set<int>)

  /** A user registers once and logs in only when registered, and tokens are new. */
  predicate Enabled(s: State, e: Event) {
    match e
    case Register(u, _, t) => u !in s.users && FreshToken(s.st, t)
    case Login(u, _, t) => u in s.users && FreshToken(s.st, t)
    case Logout(_) => true
    case Wait(_) => true
  }

  function Next(s: State, e: Event): State {
    match e
    case Register(u, name, t) => State(Registered(s.st, u, name, t), s.users + {u})
    case Login(u, name, t) => State(LoggedIn(s.st, u, name, t), s.users)
    case Logout(t) => State(LoggedOut(s.st, t), s.users)
    case Wait(seconds) => State(Later(s.st, seconds), s.users)
  }

  ghost predicate StateOk(s: State) {
    && Inv(s.st)
    && forall u :: |Unnamed(s.st, u)| <= (if u in s.users then 1 else 0) && (u !in s.users ==> LiveOf(s.st, u) == {})
  }

  lemma StepEffect(s: State, e: Event, u: int)
    requires Enabled(s, e) && Inv(s.st)
    ensures Inv(Next(s, e).st)
    ensures var n := |Unnamed(s.st, u)|;
            |Unnamed(Next(s, e).st, u)| <= n + if e.Register? && e.u == u then 1 else 0
    ensures u !in Next(s, e).users && LiveOf(s.st, u) == {} ==> LiveOf(Next(s, e).st, u) == {}
  {
    hide Inv, FreshToken;
    match e
    case Register(v, name, t) =>
      RegisterEffect(s.st, v, name, t, u);
      hide Registered, LiveOf, Unnamed;
    case Login(v, name, t) =>
      LoginEffect(s.st, v, name, t, u);
      hide LoggedIn, LiveOf, Unnamed;
    case Logout(t) =>
      LogoutEffect(s.st, t, u);
      LogoutShrinks(s.st, t, u);
      hide LoggedOut, LiveOf, Unnamed;
    case Wait(seconds) =>
      ExpiryEffect(s.st, seconds, u);
      hide Later, LiveOf;
      var before, after := Unnamed(s.st, u), Unnamed(Next(s, e).st, u);
      hide Unnamed;
      assert |before| == |after| + |before - after|;
  }

  lemma StepKeepsOk(s: State, e: Event)
    requires Enabled(s, e) && StateOk(s)
    ensures StateOk(Next(s, e))
  {
    var s' := Next(s, e);
    StepEffect(s, e, 0);
    forall u
      ensures |Unnamed(s'.st, u)| <= (if u in s'.users then 1 else 0)
      ensures u !in s'.users ==> LiveOf(s'.st, u) == {}
    {
      StepEffect(s, e, u);
    }
    hide Inv, LiveOf, Unnamed;
  }

  ghost predicate IsRun(states: seq<State>, events: seq<Event>) {
    && |states| == |events| + 1
    && states[0] == State(EMPTY, {})
    && forall i | 0 <= i < |events| :: Enabled(states[i], events[i]) && states[i + 1] == Next(states[i], events[i])
  }

  lemma {:induction false} RunKeepsOk(states: seq<State>, events: seq<Event>, k: nat)
    requires IsRun(states, events) && k <= |events|
    ensures StateOk(states[k])
  {
    if k > 0 {
      RunKeepsOk(states, events, k - 1);
      StepKeepsOk(states[k - 1], events[k - 1]);
      hide StateOk, Next;
    }
  }

  /** In every run a user has at most one live session that no Login would revoke, so at most two in all. */
  lemma AtMostTwoSessions(states: seq<State>, events: seq<Event>, k: nat, u: int)
    requires IsRun(states, events) && k <= |events|
    ensures |Unnamed(states[k].st, u)| <= 1
    ensures |LiveOf(states[k].st, u)| <= 2
  {
    RunKeepsOk(states, events, k);
    LiveIsUnnamedOrNamed(states[k].st, u);
    hide LiveOf, Unnamed;
  }

  /** Once registered, a user's unnamed sessions never become more. */
  lemma {:induction false} UnnamedNeverGrow(states: seq<State>, events: seq<Event>, i: nat, k: nat, u: int)
    requires IsRun(states, events) && i <= k <= |events| && u in states[i].users
    ensures u in states[k].users
    ensures |Unnamed(states[k].st, u)| <= |Unnamed(states[i].st, u)|
  {
    if i < k {
      UnnamedNeverGrow(states, events, i, k - 1, u);
      RunKeepsOk(states, events, k - 1);
      StepEffect(states[k - 1], events[k - 1], u);
      hide LiveOf, Unnamed, Inv;
    }
  }

  /** Once a registered user has no unnamed session, there is at most one live session for the rest of the run. */
  lemma OneSessionForGood(states: seq<State>, events: seq<Event>, i: nat, k: nat, u: int)
    requires IsRun(states, events) && i <= k <= |events| && u in states[i].users
    requires Unnamed(states[i].st, u) == {}
    ensures |LiveOf(states[k].st, u)| <= 1
  {
    UnnamedNeverGrow(states, events, i, k, u);
    RunKeepsOk(states, events, k);
    hide LiveOf, Unnamed, NameOk, Next;
    LiveIsUnnamedOrNamed(states[k].st, u);
  }

  // ---------- how long a token is worth something ----------

  function Waited(events: seq<Event>, i: nat, k: nat): nat
    requires i <= k <= |events|
  {
    if i == k then 0 else Waited(events, i, k - 1) + if events[k - 1].Wait? then events[k - 1].seconds else 0
  }

  /** The token is given out to a user. */
  predicate Issues(e: Event, u: int, name: string, t: Token) {
    e == Register(u, name, t) || e == Login(u, name, t)
  }

  predicate Reissues(e: Event, t: Token) {
    (e.Register? || e.Login?) && e.t == t
  }

  /** A Logout with the token, or a Login of a user whose entry names it. */
  predicate Revokes(s: State, e: Event, t: Token) {
    e == Logout(t) || (e.Login? && GetNamed(s.st, e.u) == Some(t))
  }

  ghost predicate Revoking(states: seq<State>, events: seq<Event>, i: nat, k: nat, t: Token)
    requires k <= |events| && |states| == |events| + 1
  {
    exists j :: i < j < k && Revokes(states[j], events[j], t)
  }

  /** The session of the token with its deadline, as long as it is not revoked; and no other. */
  ghost predicate Lasts(st: Store, t: Token, s: Session, deadline: nat, revoked: bool) {
    && (t in st.sessions ==> st.sessions[t] == Timed(s, deadline))
    && (!revoked ==> t in st.sessions)
    && (revoked && t in st.sessions ==> deadline <= st.now)
  }

  lemma IssueLasts(s: State, e: Event, u: int, name: string, t: Token)
    requires Issues(e, u, name, t)
    ensures Next(s, e).st.now == s.st.now
    ensures Lasts(Next(s, e).st, t, Session(u, name), s.st.now + 86400, false)
  {
  }

  lemma StepLasts(s: State, e: Event, t: Token, session: Session, deadline: nat, revoked: bool)
    requires Lasts(s.st, t, session, deadline, revoked) && t != "" && !Reissues(e, t)
    ensures Next(s, e).st.now == s.st.now + if e.Wait? then e.seconds else 0
    ensures Lasts(Next(s, e).st, t, session, deadline, revoked || Revokes(s, e, t))
  {
  }

  lemma {:induction false} RunLasts(states: seq<State>, events: seq<Event>, i: nat, k: nat,
                                    u: int, name: string, t: Token)
    requires IsRun(states, events) && i < k <= |events| && Issues(events[i], u, name, t)
    requires forall j | i < j < k :: !Reissues(events[j], t)
    ensures states[k].st.now == states[i].st.now + Waited(events, i + 1, k)
    ensures Lasts(states[k].st, t, Session(u, name), states[i].st.now + 86400, Revoking(states, events, i, k, t))
  {
    IssueLasts(states[i], events[i], u, name, t);
    assert t != "";
    if i + 1 < k {
      RunLasts(states, events, i, k - 1, u, name, t);
      var before := Revoking(states, events, i, k - 1, t);
      StepLasts(states[k - 1], events[k - 1], t, Session(u, name), states[i].st.now + 86400, before);
      hide Next, Enabled, Revokes, Lasts, Issues, Reissues;
      assert Revoking(states, events, i, k, t) <==> before || Revokes(states[k - 1], events[k - 1], t);
    }
  }

  /** In every run a token is accepted, as its user, for less than 86400 seconds after its Register or Login, unless it
      has been revoked, and exactly so long. */
  lemma AcceptedExactly(states: seq<State>, events: seq<Event>, i: nat, k: nat, u: int, name: string, t: Token)
    requires IsRun(states, events) && i < k <= |events| && Issues(events[i], u, name, t)
    requires forall j | i < j < k :: !Reissues(events[j], t)
    ensures GetSession(states[k].st, t)
         == if Waited(events, i + 1, k) < 86400 && !Revoking(states, events, i, k, t) then Some(Session(u, name))
            else None
  {
    RunLasts(states, events, i, k, u, name, t);
    hide Next, Enabled, Revoking, Waited, Issues;
  }

  // ---------- what a token is worth ----------

  /** CheckAuth accepts the token of a new login as its user, refuses the one that was named before,
      and answers as before for every other token. */
  lemma CheckAuthAfterLogin(st: Store, u: int, name: string, t: Token, x: Token)
    requires Inv(st) && FreshToken(st, t)
    ensures GetSession(LoggedIn(st, u, name, t), x)
         == if x == t then Some(Session(u, name))
            else if GetNamed(st, u) == Some(x) then None
            else GetSession(st, x)
  {
    if GetNamed(st, u).Some? {
      NamedIsLive(st, u);
    }
  }

  lemma CheckAuthAfterLogout(st: Store, t: Token, x: Token)
    ensures GetSession(LoggedOut(st, t), x) == if x == t then None else GetSession(st, x)
  {
  }

  // ---------- overlapping logins ----------

  /** The last command of a Login, in any state: the sessions that were live are all unnamed afterwards. So the
      unnamed become more exactly when the entry names a live session, as it does when another Login came between. */
  lemma ExecGrowsUnnamedExactly(st: Store, u: int, name: string, t: Token)
    requires FreshToken(st, t)
    ensures var st' := PutNamedSession(st, t, Session(u, name));
            && LiveOf(st', u) == LiveOf(st, u) + {t}
            && Unnamed(st', u) == LiveOf(st, u)
            && (|Unnamed(st', u)| > |Unnamed(st, u)| <==>
                GetNamed(st, u).Some? && GetNamed(st, u).value in LiveOf(st, u))
  {
    var st' := PutNamedSession(st, t, Session(u, name));
    LiveAfterPut(st, t, Session(u, name), u);
    assert LiveOf(st', u) == LiveOf(PutSession(st, t, Session(u, name)), u);
    var live, unnamed := LiveOf(st, u), Unnamed(st, u);
    assert |live| == |unnamed| + |live - unnamed|;
    assert live - unnamed ==
        if GetNamed(st, u).Some? && GetNamed(st, u).value in live then {GetNamed(st, u).value} else {};
    assert t !in live;
  }

  /** The deletion with which a Login begins, of the token that its GET returned earlier. */
  function RevokedLate(st: Store, read: Option<Token>): Store {
    match read
    case Some(t) => DelSession(st, t)
    case None => st
  }

  lemma FreshIsNotLive(st: Store, t: Token, u: int)
    requires FreshToken(st, t)
    ensures t !in LiveOf(st, u) && t !in Unnamed(st, u)
  {
  }

  lemma NamedIsNotUnnamed(st: Store, u: int)
    requires GetNamed(st, u).Some?
    ensures GetNamed(st, u).value !in Unnamed(st, u)
  {
  }

  lemma StillFresh(st: Store, u: int, name: string, t1: Token, t2: Token)
    requires FreshToken(st, t2) && t1 != t2
    ensures FreshToken(RevokedLate(LoggedIn(st, u, name, t1), GetNamed(st, u)), t2)
  {
  }

  lemma RevokedLateEffect(st: Store, u: int, name: string, t: Token)
    requires Inv(st) && FreshToken(st, t)
    ensures LiveOf(RevokedLate(LoggedIn(st, u, name, t), GetNamed(st, u)), u) == Unnamed(st, u) + {t}
    ensures t !in Unnamed(st, u)
  {
    hide Inv, LoggedIn, LiveOf, Unnamed, GetNamed, FreshToken;
    var st1, read := LoggedIn(st, u, name, t), GetNamed(st, u);
    LoginEffect(st, u, name, t, u);
    FreshIsNotLive(st, t, u);
    if read.Some? {
      NamedIsLive(st, u);
      NamedIsNotUnnamed(st, u);
      LiveAfterDel(st1, read.value, u);
    }
  }

  /** Two Logins of one user that both read the entry before either writes it leave the first
      one's session live and unnamed, whatever the state. */
  lemma OverlappingLogins(st: Store, u: int, name: string, t1: Token, t2: Token)
    requires Inv(st) && FreshToken(st, t1) && FreshToken(st, t2) && t1 != t2
    ensures var stale := RevokedLate(LoggedIn(st, u, name, t1), GetNamed(st, u));
            var st2 := PutNamedSession(stale, t2, Session(u, name));
            && Unnamed(st2, u) == Unnamed(st, u) + {t1}
            && |Unnamed(st2, u)| == |Unnamed(st, u)| + 1
            && LiveOf(st2, u) == Unnamed(st, u) + {t1, t2}
  {
    var stale := RevokedLate(LoggedIn(st, u, name, t1), GetNamed(st, u));
    hide *;
    StillFresh(st, u, name, t1, t2);
    RevokedLateEffect(st, u, name, t1);
    ExecGrowsUnnamedExactly(stale, u, name, t2);
  }
}
