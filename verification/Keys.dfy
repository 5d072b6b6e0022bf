/** The names under which the five kinds of entries are kept in the one key space of Redis. */
module Keys {
  import opened Options
  import opened Decimals
  import opened Redis
  import opened Collections

  datatype Key = UserKey(u: int) | RoomHash(room: int) | RoomCount(room: int) | SessionKey(t: Token) | SessMap(u: int)

  const REDIS_PREFIX: string := "gochat_"
  const REDIS_ROOM_PREFIX: string := "gochat_room_"
  const REDIS_ROOM_ONLINE_PREFIX: string := "gochat_room_online_count_"
  const SESSION_PREFIX: string := "sess_"
  const SESSION_MAP_PREFIX: string := "sess_map_"

  function Encode(k: Key): string {
    match k
    case UserKey(u) => REDIS_PREFIX + Decimal(u)
    case RoomHash(room) => REDIS_ROOM_PREFIX + Decimal(room)
    case RoomCount(room) => REDIS_ROOM_ONLINE_PREFIX + Decimal(room)
    case SessionKey(t) => SESSION_PREFIX + t
    case SessMap(u) => SESSION_MAP_PREFIX + Decimal(u)
  }

  /** The names of the entries of user 7 and of room 7. */
  lemma NamesSpelledOut()
    ensures Encode(UserKey(7)) == "gochat_7" && Encode(RoomHash(7)) == "gochat_room_7"
    ensures Encode(RoomCount(7)) == "gochat_room_online_count_7"
    ensures Encode(SessionKey("t")) == "sess_t" && Encode(SessMap(7)) == "sess_map_7"
  {
    assert Decimal(7) == "7";
  }

  /** The one overlap of the encodings: a session token that reads like the rest of a sess_map_ key. */
  predicate Overlap(k: Key, l: Key) {
    k.SessionKey? && l.SessMap? && k.t == "map_" + Decimal(l.u)
  }

  lemma DecimalStart(n: int)
    ensures Decimal(n)[0] == '-' || IsDigit(Decimal(n)[0])
  {
    assert Decimal(n)[0] in Decimal(n);
  }

  lemma SameKind(k: Key, l: Key)
    requires Encode(k) == Encode(l)
    requires match k
             case UserKey(_) => l.UserKey?
             case RoomHash(_) => l.RoomHash?
             case RoomCount(_) => l.RoomCount?
             case SessionKey(_) => l.SessionKey?
             case SessMap(_) => l.SessMap?
    ensures k == l
  {
    match k
    case UserKey(u) => CancelPrefix(REDIS_PREFIX, Decimal(u), Decimal(l.u)); DecimalInjective(u, l.u);
    case RoomHash(room) =>
      CancelPrefix(REDIS_ROOM_PREFIX, Decimal(room), Decimal(l.room));
      DecimalInjective(room, l.room);
    case RoomCount(room) =>
      CancelPrefix(REDIS_ROOM_ONLINE_PREFIX, Decimal(room), Decimal(l.room));
      DecimalInjective(room, l.room);
    case SessionKey(t) => CancelPrefix(SESSION_PREFIX, t, l.t);
    case SessMap(u) => CancelPrefix(SESSION_MAP_PREFIX, Decimal(u), Decimal(l.u)); DecimalInjective(u, l.u);
  }

  /** Where the encodings of the kinds part: a character and its place. */
  lemma Landmarks(k: Key)
    ensures var e := Encode(k);
            && |e| >= 5
            && (e[0] == 's' <==> k.SessionKey? || k.SessMap?)
            && (k.UserKey? || k.RoomHash? || k.RoomCount? ==> |e| > 7 && (e[7] == 'r' <==> !k.UserKey?))
            && (k.RoomHash? || k.RoomCount? ==> |e| > 12 && (e[12] == 'o' <==> k.RoomCount?))
  {
    match k
    case UserKey(u) => DecimalStart(u); assert Encode(k)[7] == Decimal(u)[0];
    case RoomHash(room) => DecimalStart(room); assert Encode(k)[12] == Decimal(room)[0];
    case RoomCount(_) =>
    case SessionKey(_) =>
    case SessMap(_) =>
  }

  lemma SessionOverSessMap(t: Token, u: int)
    ensures Encode(SessionKey(t)) == Encode(SessMap(u)) <==> t == "map_" + Decimal(u)
  {
    assert SESSION_MAP_PREFIX + Decimal(u) == SESSION_PREFIX + ("map_" + Decimal(u));
    if Encode(SessionKey(t)) == Encode(SessMap(u)) {
      CancelPrefix(SESSION_PREFIX, t, "map_" + Decimal(u));
    }
  }

  /** For all keys with all integers and all tokens: two different keys have one name in exactly one case. */
  lemma KeysCollideExactly(k: Key, l: Key)
    ensures Encode(k) == Encode(l) <==> k == l || Overlap(k, l) || Overlap(l, k)
  {
    Landmarks(k);
    Landmarks(l);
    if k.SessionKey? && l.SessMap? {
      SessionOverSessMap(k.t, l.u);
    } else if l.SessionKey? && k.SessMap? {
      SessionOverSessMap(l.t, k.u);
    } else if Encode(k) == Encode(l) {
      hide Encode;
      SameKind(k, l);
    }
  }

  // ---------- the keys that are in use ----------

  predicate IsInt64(n: int) { -0x8000_0000_0000_0000 <= n < 0x8000_0000_0000_0000 }

  predicate IsUrlSafe(c: char) {
    'A' <= c <= 'Z' || 'a' <= c <= 'z' || '0' <= c <= '9' || c == '-' || c == '_'
  }

  /** 32 bytes in the URL-safe Base64 of section 5 of RFC 4648: 43 characters and one of padding. */
  predicate IsToken(t: Token) {
    |t| == 44 && t[43] == '=' && forall i | 0 <= i < 43 :: IsUrlSafe(t[i])
  }

  predicate InUse(k: Key) {
    match k
    case UserKey(u) => IsInt64(u)
    case RoomHash(room) => IsInt64(room)
    case RoomCount(room) => IsInt64(room)
    case SessionKey(t) => IsToken(t)
    case SessMap(u) => IsInt64(u)
  }

  /** No two keys in use share a name. */
  lemma KeysSeparate(k: Key, l: Key)
    requires InUse(k) && InUse(l) && Encode(k) == Encode(l)
    ensures k == l
  {
    KeysCollideExactly(k, l);
    if Overlap(k, l) {
      DecimalLength(l.u);
    } else if Overlap(l, k) {
      DecimalLength(k.u);
    }
  }

  // ---------- one flat store ----------

  datatype Entry =
    | ServerEntry(server: Timed<string>)
    | HashEntry(members: map<int, string>)
    | CountEntry(count: int)
    | SessionEntry(session: Timed<Session>)
    | NameEntry(named: Timed<Token>)

  type Flat = map<string, Entry>

  function Find<K, V>(m: map<K, V>, k: K): Option<V> {
    if k in m then Some(m[k]) else None
  }

  /** Writes an entry or, if there is none, deletes the key. */
  function Write<K, V>(m: map<K, V>, k: K, e: Option<V>): map<K, V> {
    match e
    case Some(v) => m[k := v]
    case None => m - {k}
  }

  function Lookup(st: Store, k: Key): Option<Entry> {
    match k
    case UserKey(u) => if u in st.servers then Some(ServerEntry(st.servers[u])) else None
    case RoomHash(room) => if room in st.rooms then Some(HashEntry(st.rooms[room])) else None
    case RoomCount(room) => if room in st.counts then Some(CountEntry(st.counts[room])) else None
    case SessionKey(t) => if t in st.sessions then Some(SessionEntry(st.sessions[t])) else None
    case SessMap(u) => if u in st.sessMap then Some(NameEntry(st.sessMap[u])) else None
  }

  predicate Fits(k: Key, e: Entry) {
    match k
    case UserKey(_) => e.ServerEntry?
    case RoomHash(_) => e.HashEntry?
    case RoomCount(_) => e.CountEntry?
    case SessionKey(_) => e.SessionEntry?
    case SessMap(_) => e.NameEntry?
  }

  /** The flat store holds, under the names of the keys in use, what the typed store holds. */
  ghost predicate Represents(flat: Flat, st: Store) {
    forall k | InUse(k) :: Find(flat, Encode(k)) == Lookup(st, k)
  }

  /** The typed store after one flat write. */
  ghost predicate Written(st: Store, st': Store, k: Key, e: Option<Entry>) {
    && st'.now == st.now
    && (e.Some? ==> Fits(k, e.value))
    && Lookup(st', k) == e
    && forall l | l != k :: Lookup(st', l) == Lookup(st, l)
  }

  /** A write of one key in the typed store is a write of its name in the flat store. */
  lemma WriteRefines(flat: Flat, st: Store, st': Store, k: Key, e: Option<Entry>)
    requires Represents(flat, st) && InUse(k) && Written(st, st', k, e)
    ensures Represents(Write(flat, Encode(k), e), st')
  {
    forall l | InUse(l)
      ensures Find(Write(flat, Encode(k), e), Encode(l)) == Lookup(st', l)
    {
      if Encode(l) == Encode(k) {
        KeysSeparate(k, l);
      }
      hide Encode, InUse, Lookup, Fits;
      assert Find(flat, Encode(l)) == Lookup(st, l);
    }
  }

  /** Every command of module Redis writes one key, the one that the source names; EXEC of Login writes two. */
  lemma SetCommandsWrite(st: Store, u: int, t: Token, s: Session, serverId: string)
    ensures Written(st, SetServer(st, u, serverId), UserKey(u), Some(ServerEntry(Timed(serverId, st.now + VALID_TIME))))
    ensures Written(st, PutSession(st, t, s), SessionKey(t), Some(SessionEntry(Timed(s, st.now + VALID_TIME))))
    ensures Written(PutSession(st, t, s), PutNamedSession(st, t, s), SessMap(s.userId),
                    Some(NameEntry(Timed(t, st.now + VALID_TIME))))
  {
  }

  lemma DelCommandsWrite(st: Store, u: int, t: Token)
    ensures Written(st, DelServer(st, u), UserKey(u), None)
    ensures Written(st, DelSession(st, t), SessionKey(t), None)
    ensures Written(st, DelNamed(st, u), SessMap(u), None)
  {
  }

  lemma HashCommandsWrite(st: Store, room: int, u: int, name: string)
    ensures Written(st, HSet(st, room, u, name), RoomHash(room), Some(HashEntry(Hash(st, room)[u := name])))
    ensures var h := Hash(st, room) - {u};
            Written(st, HDel(st, room, u), RoomHash(room), if h == map[] then None else Some(HashEntry(h)))
  {
  }

  lemma CountCommandWrites(st: Store, room: int, n: int)
    ensures Written(st, Add(st, room, n), RoomCount(room), Some(CountEntry(Count(st, room) + n)))
  {
  }

  lemma EmptyRepresented()
    ensures Represents(map[], EMPTY)
  {
  }
}
