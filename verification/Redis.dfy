/** The Redis commands that logic/rpc.go uses, on a store with one typed map for each kind of key.
    Module Keys proves that the typed maps refine the one flat key space. */
module Redis {
  import opened Options

  type Token = string

  datatype Session = Session(userId: int, userName: string)

  /** A value with the second at which its key expires. */
  datatype Timed<T> = Timed(value: T, deadline: nat)

  datatype Store = Store(
    now: nat,
    sessions: map<Token, Timed<Session>>, sessMap: map<int, Timed<Token>>, servers: map<int, Timed<string>>,
    rooms: map<int, map<int, string>>, counts: map<int, int>)

  const EMPTY: Store := Store(0, map[], map[], map[], map[], map[])
  const VALID_TIME: nat := 86400

  predicate Live<K, V>(m: map<K, Timed<V>>, k: K, now: nat) {
    k in m && now < m[k].deadline
  }

  function Get<K, V>(m: map<K, Timed<V>>, k: K, now: nat): Option<V> {
    if Live(m, k, now) then Some(m[k].value) else None
  }

  /** HGETALL of a session key; a key that is missing or has expired reads as no session. */
  function GetSession(st: Store, t: Token): Option<Session> {
    Get(st.sessions, t, st.now)
  }

  function GetNamed(st: Store, u: int): Option<Token> {
    Get(st.sessMap, u, st.now)
  }

  function GetServer(st: Store, u: int): string {
    if Live(st.servers, u, st.now) then st.servers[u].value else ""
  }

  function SetServer(st: Store, u: int, serverId: string): Store {
    st.(servers := st.servers[u := Timed(serverId, st.now + VALID_TIME)])
  }

  function DelSession(st: Store, t: Token): Store { st.(sessions := st.sessions - {t}) }

  function DelNamed(st: Store, u: int): Store { st.(sessMap := st.sessMap - {u}) }

  function DelServer(st: Store, u: int): Store { st.(servers := st.servers - {u}) }

  /** MULTI, HMSET, EXPIRE, EXEC of Register. */
  function PutSession(st: Store, t: Token, s: Session): Store {
    st.(sessions := st.sessions[t := Timed(s, st.now + VALID_TIME)])
  }

  /** MULTI, HMSET, EXPIRE, SET, EXEC of Login. */
  function PutNamedSession(st: Store, t: Token, s: Session): Store {
    PutSession(st, t, s).(sessMap := st.sessMap[s.userId := Timed(t, st.now + VALID_TIME)])
  }

  /** HGETALL of a room's hash. */
  function Hash(st: Store, room: int): map<int, string> {
    if room in st.rooms then st.rooms[room] else map[]
  }

  /** HGET; a missing field reads as the empty string. */
  function HGet(st: Store, room: int, u: int): string {
    if u in Hash(st, room) then Hash(st, room)[u] else ""
  }

  function HSet(st: Store, room: int, u: int, name: string): Store {
    st.(rooms := st.rooms[room := Hash(st, room)[u := name]])
  }

  /** HDEL; a hash disappears with its last field. */
  function HDel(st: Store, room: int, u: int): Store {
    var h := Hash(st, room) - {u};
    st.(rooms := if h == map[] then st.rooms - {room} else st.rooms[room := h])
  }

  /** GET of a counter; a missing counter reads as zero. */
  function Count(st: Store, room: int): int {
    if room in st.counts then st.counts[room] else 0
  }

  /** INCR (by one) and DECR (by minus one). */
  function Add(st: Store, room: int, n: int): Store {
    st.(counts := st.counts[room := Count(st, room) + n])
  }
}
