/** Who is in a room: the Connect and DisConnect procedures of logic/rpc.go on a room's hash of members
    and its online counter, each as one uninterrupted call. */
module Presence {
  import opened Redis

  /** The room part of Connect. */
  function Entered(st: Store, room: int, u: int, name: string): Store {
    if HGet(st, room, u) == "" then Add(HSet(st, room, u, name), room, 1) else st
  }

  /** DisConnect's guarded decrement. */
  function Uncounted(st: Store, room: int): Store {
    if room > 0 && Count(st, room) > 0 then Add(st, room, -1) else st
  }

  /** DisConnect. */
  function Exited(st: Store, room: int, u: int): Store {
    var st1 := Uncounted(st, room);
    if u != 0 then HDel(st1, room, u) else st1
  }

  ghost predicate Named(h: map<int, string>) {
    forall u | u in h :: h[u] != ""
  }

  /** The counter counts the members. */
  predicate Exact(st: Store, room: int) { Count(st, room) == |Hash(st, room)| }

  predicate Bounded(st: Store, room: int) { 0 <= Count(st, room) <= |Hash(st, room)| }

  lemma HashAfterHSet(st: Store, room: int, u: int, name: string)
    ensures Hash(HSet(st, room, u, name), room) == Hash(st, room)[u := name]
    ensures forall r | r != room :: Hash(HSet(st, room, u, name), r) == Hash(st, r)
    ensures HSet(st, room, u, name).counts == st.counts
  {
  }

  lemma HashAfterHDel(st: Store, room: int, u: int)
    ensures Hash(HDel(st, room, u), room) == Hash(st, room) - {u}
    ensures forall r | r != room :: Hash(HDel(st, room, u), r) == Hash(st, r)
    ensures HDel(st, room, u).counts == st.counts
  {
  }

  lemma SizeAfterSet(h: map<int, string>, u: int, name: string)
    ensures |h[u := name]| == |h| + if u in h then 0 else 1
  {
    assert h[u := name].Keys == h.Keys + {u};
  }

  lemma SizeAfterDel(h: map<int, string>, u: int)
    ensures |h - {u}| == |h| - if u in h then 1 else 0
  {
    assert (h - {u}).Keys == h.Keys - {u};
  }

  /** What Connect does to every room. */
  lemma EnteredEffect(st: Store, room: int, u: int, name: string, r: int)
    ensures var h, st' := Hash(st, r), Entered(st, room, u, name);
            if r == room && HGet(st, room, u) == "" then
              Hash(st', r) == h[u := name] && Count(st', r) == Count(st, r) + 1
              && |Hash(st', r)| == |h| + if u in h then 0 else 1
            else Hash(st', r) == h && Count(st', r) == Count(st, r)
  {
    HashAfterHSet(st, room, u, name);
    SizeAfterSet(Hash(st, room), u, name);
  }

  lemma UncountedEffect(st: Store, room: int, r: int)
    ensures var n := Count(st, r); Count(Uncounted(st, room), r) == if r == room && room > 0 && n > 0 then n - 1 else n
    ensures Hash(Uncounted(st, room), r) == Hash(st, r)
  {
  }

  lemma HDelEffect(st: Store, room: int, u: int, r: int)
    ensures var h, st' := Hash(st, r), if u != 0 then HDel(st, room, u) else st;
            && Hash(st', r) == (if r == room && u != 0 then h - {u} else h)
            && |Hash(st', r)| == |h| - (if r == room && u != 0 && u in h then 1 else 0)
            && Count(st', r) == Count(st, r)
  {
    hide HDel;
    HashAfterHDel(st, room, u);
    SizeAfterDel(Hash(st, room), u);
  }

  /** What DisConnect does to every room. */
  lemma ExitedEffect(st: Store, room: int, u: int, r: int)
    ensures var h, n, st' := Hash(st, r), Count(st, r), Exited(st, room, u);
            if r == room then
              Hash(st', r) == (if u != 0 then h - {u} else h)
              && Count(st', r) == (if room > 0 && n > 0 then n - 1 else n)
              && |Hash(st', r)| == |h| - if u != 0 && u in h then 1 else 0
            else Hash(st', r) == h && Count(st', r) == n
  {
    hide HDel;
    UncountedEffect(st, room, r);
    HDelEffect(Uncounted(st, room), room, u, r);
    hide Uncounted, Count, Hash;
  }

  /** From an exact counter, Connect keeps it exact unless the member is stored under an empty name. */
  lemma EnteredExact(st: Store, room: int, u: int, name: string)
    requires Exact(st, room)
    ensures Exact(Entered(st, room, u, name), room) <==> !(u in Hash(st, room) && Hash(st, room)[u] == "")
  {
    EnteredEffect(st, room, u, name, room);
    hide Entered, Hash, Count;
  }

  /** From an exact counter, DisConnect keeps it exact for a member or for an empty room, and for nobody else. */
  lemma ExitedExact(st: Store, room: int, u: int)
    requires Exact(st, room) && room > 0 && u != 0
    ensures Exact(Exited(st, room, u), room) <==> u in Hash(st, room) || Hash(st, room) == map[]
  {
    ExitedEffect(st, room, u, room);
    hide Exited, Hash, Count;
  }

  // ---------- sequences of whole calls ----------

  datatype Call = Connect(room: int, u: int, name: string) | DisConnect(room: int, u: int)

  function After(st: Store, call: Call): Store {
    match call
    case Connect(room, u, name) => Entered(st, room, u, name)
    case DisConnect(room, u) => Exited(st, room, u)
  }

  function AfterAll(st: Store, calls: seq<Call>): Store {
    if calls == [] then st else After(AfterAll(st, calls[..|calls| - 1]), calls[|calls| - 1])
  }

  ghost predicate AllNamed(calls: seq<Call>) {
    forall i | 0 <= i < |calls| && calls[i].Connect? :: calls[i].name != ""
  }

  /** Every disconnect from the room names somebody who is in it at that moment. */
  ghost predicate OnlyMembersLeave(st: Store, room: int, calls: seq<Call>) {
    forall i | 0 <= i < |calls| && calls[i].DisConnect? && calls[i].room == room ::
      calls[i].u != 0 && calls[i].u in Hash(AfterAll(st, calls[..i]), room)
  }

  lemma AfterKeepsBound(st: Store, call: Call, r: int)
    requires Bounded(st, r) && Named(Hash(st, r)) && r > 0
    requires call.Connect? ==> call.name != ""
    ensures Bounded(After(st, call), r) && Named(Hash(After(st, call), r))
  {
    match call
    case Connect(room, u, name) =>
      EnteredEffect(st, room, u, name, r);
      hide Entered, Hash, Count;
    case DisConnect(room, u) =>
      ExitedEffect(st, room, u, r);
      hide Exited, Hash, Count;
  }

  /** Calls one after the other, with repeated and unannounced disconnects among them:
      the counter is never negative and never above the number of members. */
  lemma {:induction false} CallsKeepBound(st: Store, calls: seq<Call>, r: int)
    requires Bounded(st, r) && Named(Hash(st, r)) && r > 0 && AllNamed(calls)
    ensures Bounded(AfterAll(st, calls), r) && Named(Hash(AfterAll(st, calls), r))
  {
    if calls != [] {
      CallsKeepBound(st, calls[..|calls| - 1], r);
      AfterKeepsBound(AfterAll(st, calls[..|calls| - 1]), calls[|calls| - 1], r);
      hide After, Bounded, Hash, Named;
    }
  }

  /** If only members leave, the counter is the number of members after every call. */
  lemma {:induction false} CallsKeepExact(st: Store, calls: seq<Call>, r: int)
    requires Exact(st, r) && Named(Hash(st, r)) && r > 0 && AllNamed(calls) && OnlyMembersLeave(st, r, calls)
    ensures Exact(AfterAll(st, calls), r)
  {
    if calls != [] {
      var before, last := calls[..|calls| - 1], calls[|calls| - 1];
      assert forall i | 0 <= i < |before| :: before[..i] == calls[..i];
      CallsKeepExact(st, before, r);
      CallsKeepBound(st, before, r);
      var mid := AfterAll(st, before);
      match last {
        case Connect(room, u, name) => EnteredEffect(mid, room, u, name, r);
        case DisConnect(room, u) => ExitedEffect(mid, room, u, r);
      }
      hide Entered, Exited, Hash, Count;
    }
  }
}
