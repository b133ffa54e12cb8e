/** The part every OAuth store has in common: a local map in front of an optional
    table on vire-server that is written through and read through. */
module KeyedStore {
  import opened Common

  /** The remote table as the store's backend client reaches it; `Detached` is a nil backend. */
  datatype Remote<V> = Detached | Table(rows: map<string, V>)

  /** What a read of the remote table brings back: an error, a 404, or a record. */
  datatype Reply<+V> = Failed | Missing | Found(value: V)

  datatype Store<V> = Store(local: map<string, V>, remote: Remote<V>)

  /** Asks the remote table for `id`; `up` says whether the network call goes through. */
  function Ask<V>(remote: Remote<V>, id: string, up: bool): Reply<V> {
    if remote.Detached? then Missing
    else if !up then Failed
    else if id in remote.rows then Found(remote.rows[id])
    else Missing
  }

  function Save<V>(remote: Remote<V>, id: string, v: V, up: bool): Remote<V> {
    if remote.Table? && up then Table(remote.rows[id := v]) else remote
  }

  function Erase<V>(remote: Remote<V>, id: string, up: bool): Remote<V> {
    if remote.Table? && up then Table(remote.rows - {id}) else remote
  }

  function Put<V>(s: Store<V>, id: string, v: V, up: bool): Store<V> {
    Store(s.local[id := v], Save(s.remote, id, v, up))
  }

  function Delete<V>(s: Store<V>, id: string, up: bool): Store<V> {
    Store(s.local - {id}, Erase(s.remote, id, up))
  }

  /** The record a read of `id` arrives at: the local one, else the one the backend replied with. */
  function Reached<V>(local: map<string, V>, id: string, reply: Reply<V>): Option<V> {
    if id in local then Some(local[id])
    else if reply.Found? then Some(reply.value)
    else None
  }

  /** The local map after a read of `id`: a fetched record is kept under its own key. */
  function Cached<V>(local: map<string, V>, id: string, reply: Reply<V>, key: V -> string): map<string, V> {
    if id in local || !reply.Found? then local
    else local[key(reply.value) := reply.value]
  }

  /** The store after a read of `id`. */
  function Read<V>(s: Store<V>, id: string, up: bool, key: V -> string): Store<V> {
    s.(local := Cached(s.local, id, Ask(s.remote, id, up), key))
  }

  /** A record only while its deadline has not passed. */
  function IfLive<V>(v: Option<V>, deadline: V -> Time, now: Time): Option<V> {
    if v.Some? && now <= deadline(v.value) then v else None
  }

  /** What `Cleanup` leaves. */
  function Live<V>(local: map<string, V>, deadline: V -> Time, now: Time): map<string, V> {
    map k | k in local && now <= deadline(local[k]) :: local[k]
  }
}

/** The four OAuth stores, one class each, over `KeyedStore`. Network outcomes and the
    clock are parameters: `up` flags say which backend calls go through. */
module Stores {
  import opened Common
  import opened OAuthTypes
  import opened KeyedStore

  function ClientKey(c: Client): string { c.clientId }
  function SessionKey(s: Session): string { s.sessionId }
  function CodeKey(c: AuthCode): string { c.code }
  function TokenKey(t: RefreshToken): string { t.token }

  class ClientStore {
    var clients: map<string, Client>
    var remote: Remote<Client>

    constructor (remote: Remote<Client>)
      ensures View() == Store(map[], remote)
    {
      clients, this.remote := map[], remote;
    }

    ghost function View(): Store<Client> reads this { Store(clients, remote) }

    method Put(client: Client, up: bool)
      modifies this
      ensures View() == KeyedStore.Put(old(View()), client.clientId, client, up)
    {
      clients := clients[client.clientId := client];
      if remote.Table? {
        remote := Save(remote, client.clientId, client, up);
      }
    }

    method Get(clientId: string, up: bool) returns (r: Option<Client>)
      modifies this
      ensures r == Reached(old(clients), clientId, Ask(remote, clientId, up))
      ensures View() == Store(Cached(old(clients), clientId, Ask(remote, clientId, up), ClientKey), old(remote))
    {
      if clientId in clients {
        return Some(clients[clientId]);
      }
      var reply := Ask(remote, clientId, up);
      if reply.Found? {
        clients := clients[reply.value.clientId := reply.value];
        return Some(reply.value);
      }
      return None;
    }
  }

  /** `best` is a newest unexpired session of the client; several may tie on creation time. */
  ghost predicate IsNewest(sessions: map<string, Session>, clientId: string, now: Time, best: Option<Session>) {
    match best
    case None => forall k :: k in sessions ==> !Pending(sessions[k], clientId, now)
    case Some(b) =>
      && (exists k :: k in sessions && sessions[k] == b)
      && Pending(b, clientId, now)
      && (forall k :: k in sessions && Pending(sessions[k], clientId, now) ==> sessions[k].createdAt <= b.createdAt)
  }

  predicate Pending(s: Session, clientId: string, now: Time) {
    s.clientId == clientId && now <= SessionDeadline(s)
  }

  /** With distinct creation times the order in which the map is walked cannot matter. */
  lemma NewestIsUnique(sessions: map<string, Session>, clientId: string, now: Time, a: Option<Session>,
                       b: Option<Session>)
    requires forall j, k :: j in sessions && k in sessions && j != k ==> sessions[j].createdAt != sessions[k].createdAt
    requires IsNewest(sessions, clientId, now, a) && IsNewest(sessions, clientId, now, b)
    ensures a == b
  {
    if a.Some? && b.Some? {
      var j :| j in sessions && sessions[j] == a.value;
      var k :| k in sessions && sessions[k] == b.value;
      assert a.value.createdAt == b.value.createdAt;
    }
  }

  class SessionStore {
    var sessions: map<string, Session>
    var remote: Remote<Session>

    constructor (remote: Remote<Session>)
      ensures View() == Store(map[], remote)
    {
      sessions, this.remote := map[], remote;
    }

    ghost function View(): Store<Session> reads this { Store(sessions, remote) }

    method Put(session: Session, up: bool)
      modifies this
      ensures View() == KeyedStore.Put(old(View()), session.sessionId, session, up)
    {
      sessions := sessions[session.sessionId := session];
      if remote.Table? {
        remote := Save(remote, session.sessionId, session, up);
      }
    }

    method Get(sessionId: string, up: bool, now: Time) returns (r: Option<Session>)
      modifies this
      ensures r == IfLive(Reached(old(sessions), sessionId, Ask(remote, sessionId, up)), SessionDeadline, now)
      ensures View() == Store(Cached(old(sessions), sessionId, Ask(remote, sessionId, up), SessionKey), old(remote))
    {
      var sess;
      if sessionId in sessions {
        sess := sessions[sessionId];
      } else {
        var reply := Ask(remote, sessionId, up);
        if !reply.Found? {
          return None;
        }
        sess := reply.value;
        sessions := sessions[sess.sessionId := sess];
      }
      if now > sess.createdAt + SESSION_TTL {
        return None;
      }
      return Some(sess);
    }

    method Delete(sessionId: string, up: bool)
      modifies this
      ensures View() == KeyedStore.Delete(old(View()), sessionId, up)
    {
      sessions := sessions - {sessionId};
      if remote.Table? {
        remote := Erase(remote, sessionId, up);
      }
    }

    /** The scan of the local sessions; the keys are met in an arbitrary order. */
    method GetByClientId(clientId: string, now: Time) returns (best: Option<Session>)
      ensures IsNewest(sessions, clientId, now, best)
    {
      best := None;
      var rest := sessions.Keys;
      while rest != {}
        invariant rest <= sessions.Keys
        invariant IsNewest(map k | k in sessions && k !in rest :: sessions[k], clientId, now, best)
      {
        ghost var before := map k | k in sessions && k !in rest :: sessions[k];
        var k :| k in rest;
        rest := rest - {k};
        var sess := sessions[k];
        ghost var after := map k | k in sessions && k !in rest :: sessions[k];
        assert after == before[k := sess];
        if sess.clientId == clientId && !(now > sess.createdAt + SESSION_TTL)
           && (best.None? || sess.createdAt > best.value.createdAt) {
          best := Some(sess);
          assert k in after && after[k] == sess;
        } else if best.Some? {
          ghost var j :| j in before && before[j] == best.value;
          assert j in after && after[j] == best.value;
        }
      }
      assert (map k | k in sessions && k !in rest :: sessions[k]) == sessions;
    }

    method Cleanup(now: Time)
      modifies this
      ensures View() == Store(Live(old(sessions), SessionDeadline, now), old(remote))
    {
      var rest := sessions.Keys;
      while rest != {}
        invariant rest <= sessions.Keys && remote == old(remote)
        invariant sessions ==
          map k | k in old(sessions) && (k in rest || now <= SessionDeadline(old(sessions)[k])) :: old(sessions)[k]
      {
        var k :| k in rest;
        rest := rest - {k};
        if now > sessions[k].createdAt + SESSION_TTL {
          sessions := sessions - {k};
        }
      }
    }
  }

  /** The lock-protected tail of `ConsumeCode`: hand the code out if it is held, unexpired and unused. */
  function Claim(codes: map<string, AuthCode>, code: string, now: Time): Option<AuthCode> {
    if code in codes && now <= codes[code].expiresAt && !codes[code].used
    then Some(codes[code].(used := true)) else None
  }

  function Claimed(codes: map<string, AuthCode>, code: string, now: Time): map<string, AuthCode> {
    var c := Claim(codes, code, now);
    if c.Some? then codes[code := c.value] else codes
  }

  /** The re-check after relocking: a copy cached meanwhile wins over the fetched one. */
  function Adopted(codes: map<string, AuthCode>, code: string, fetched: AuthCode): map<string, AuthCode> {
    if code in codes then codes else codes[code := fetched]
  }

  function MarkedLocal(codes: map<string, AuthCode>, code: string): map<string, AuthCode> {
    if code in codes then codes[code := codes[code].(used := true)] else codes
  }

  function MarkedRemote(remote: Remote<AuthCode>, code: string, up: bool): Remote<AuthCode> {
    if remote.Table? && up then Table(MarkedLocal(remote.rows, code)) else remote
  }

  /** One undisturbed call of `ConsumeCode`; `read` and `mark` are its two network outcomes. */
  function Consume(s: Store<AuthCode>, code: string, read: bool, mark: bool, now: Time)
    : (r: (Store<AuthCode>, Option<AuthCode>))
  {
    var reply := Ask(s.remote, code, read);
    var codes := if reply.Found? then Adopted(s.local, code, reply.value) else s.local;
    var c := Claim(codes, code, now);
    (Store(Claimed(codes, code, now), if c.Some? then MarkedRemote(s.remote, code, mark) else s.remote), c)
  }

  /** The codes held once a consuming call has asked the backend. */
  function Held(s: Store<AuthCode>, code: string, read: bool): Store<AuthCode> {
    var reply := Ask(s.remote, code, read);
    if reply.Found? then s.(local := Adopted(s.local, code, reply.value)) else s
  }

  /** The codes after a held one has been handed out. */
  function Taken(s: Store<AuthCode>, code: string, mark: bool): Store<AuthCode> {
    Store(MarkedLocal(s.local, code), MarkedRemote(s.remote, code, mark))
  }

  lemma ConsumeShape(s: Store<AuthCode>, code: string, read: bool, mark: bool, now: Time)
    ensures
      var held := Held(s, code, read);
      var taken := Claim(held.local, code, now);
      Consume(s, code, read, mark, now) == (if taken.Some? then Taken(held, code, mark) else held, taken)
  {
  }

  class CodeStore {
    var codes: map<string, AuthCode>
    var remote: Remote<AuthCode>

    constructor (remote: Remote<AuthCode>)
      ensures View() == Store(map[], remote)
    {
      codes, this.remote := map[], remote;
    }

    ghost function View(): Store<AuthCode> reads this { Store(codes, remote) }

    method Put(code: AuthCode, up: bool)
      modifies this
      ensures View() == KeyedStore.Put(old(View()), code.code, code, up)
    {
      codes := codes[code.code := code];
      if remote.Table? {
        remote := Save(remote, code.code, code, up);
      }
    }

    method Get(code: string, up: bool, now: Time) returns (r: Option<AuthCode>)
      modifies this
      ensures r == IfLive(Reached(old(codes), code, Ask(remote, code, up)), CodeDeadline, now)
      ensures View() == Store(Cached(old(codes), code, Ask(remote, code, up), CodeKey), old(remote))
    {
      var c;
      if code in codes {
        c := codes[code];
      } else {
        var reply := Ask(remote, code, up);
        if !reply.Found? {
          return None;
        }
        c := reply.value;
        codes := codes[c.code := c];
      }
      if now > c.expiresAt {
        return None;
      }
      return Some(c);
    }

    method MarkUsed(code: string, up: bool)
      modifies this
      ensures View() == Store(MarkedLocal(old(codes), code), MarkedRemote(old(remote), code, up))
    {
      if code in codes {
        codes := codes[code := codes[code].(used := true)];
      }
      remote := MarkedRemote(remote, code, up);
    }

    /** The section that runs once the code has been looked up, under one hold of the lock. */
    method ClaimLocked(code: string, now: Time) returns (r: Option<AuthCode>)
      modifies this`codes
      ensures r == Claim(old(codes), code, now) && codes == Claimed(old(codes), code, now)
    {
      if code !in codes {
        return None;
      }
      var c := codes[code];
      if now > c.expiresAt {
        return None;
      }
      if c.used {
        return None;
      }
      c := c.(used := true);
      codes := codes[code := c];
      return Some(c);
    }

    /** The section entered after relocking with a record fetched from the backend. */
    method AdoptAndClaim(code: string, fetched: AuthCode, now: Time) returns (r: Option<AuthCode>)
      modifies this`codes
      ensures r == Claim(Adopted(old(codes), code, fetched), code, now)
      ensures codes == Claimed(Adopted(old(codes), code, fetched), code, now)
    {
      if code !in codes {
        codes := codes[code := fetched];
      }
      r := ClaimLocked(code, now);
    }

    method ConsumeCode(code: string, read: bool, mark: bool, now: Time) returns (r: Option<AuthCode>)
      modifies this
      ensures (View(), r) == Consume(old(View()), code, read, mark, now)
    {
      if code !in codes && remote.Table? {
        var reply := Ask(remote, code, read);
        if !reply.Found? {
          return None;
        }
        r := AdoptAndClaim(code, reply.value, now);
      } else {
        r := ClaimLocked(code, now);
      }
      if r.Some? && remote.Table? {
        remote := MarkedRemote(remote, code, mark);
      }
    }

    method Cleanup(now: Time)
      modifies this
      ensures View() == Store(Live(old(codes), CodeDeadline, now), old(remote))
    {
      var rest := codes.Keys;
      while rest != {}
        invariant rest <= codes.Keys && remote == old(remote)
        invariant codes == map k | k in old(codes) && (k in rest || now <= CodeDeadline(old(codes)[k])) :: old(codes)[k]
      {
        var k :| k in rest;
        rest := rest - {k};
        if now > codes[k].expiresAt {
          codes := codes - {k};
        }
      }
    }
  }

  class TokenStore {
    var tokens: map<string, RefreshToken>
    var remote: Remote<RefreshToken>

    constructor (remote: Remote<RefreshToken>)
      ensures View() == Store(map[], remote)
    {
      tokens, this.remote := map[], remote;
    }

    ghost function View(): Store<RefreshToken> reads this { Store(tokens, remote) }

    method Put(token: RefreshToken, up: bool)
      modifies this
      ensures View() == KeyedStore.Put(old(View()), token.token, token, up)
    {
      tokens := tokens[token.token := token];
      if remote.Table? {
        remote := Save(remote, token.token, token, up);
      }
    }

    method Get(token: string, up: bool, now: Time) returns (r: Option<RefreshToken>)
      modifies this
      ensures r == IfLive(Reached(old(tokens), token, Ask(remote, token, up)), TokenDeadline, now)
      ensures View() == Store(Cached(old(tokens), token, Ask(remote, token, up), TokenKey), old(remote))
    {
      var t;
      if token in tokens {
        t := tokens[token];
      } else {
        var reply := Ask(remote, token, up);
        if !reply.Found? {
          return None;
        }
        t := reply.value;
        tokens := tokens[t.token := t];
      }
      if now > t.expiresAt {
        return None;
      }
      return Some(t);
    }

    method Delete(token: string, up: bool)
      modifies this
      ensures View() == KeyedStore.Delete(old(View()), token, up)
    {
      tokens := tokens - {token};
      if remote.Table? {
        remote := Erase(remote, token, up);
      }
    }

    method Cleanup(now: Time)
      modifies this
      ensures View() == Store(Live(old(tokens), TokenDeadline, now), old(remote))
    {
      var rest := tokens.Keys;
      while rest != {}
        invariant rest <= tokens.Keys && remote == old(remote)
        invariant tokens ==
          map k | k in old(tokens) && (k in rest || now <= TokenDeadline(old(tokens)[k])) :: old(tokens)[k]
      {
        var k :| k in rest;
        rest := rest - {k};
        if now > tokens[k].expiresAt {
          tokens := tokens - {k};
        }
      }
    }
  }

  /** The values of the four stores together. */
  datatype AuthStores = AuthStores(
    clients: Store<Client>,
    sessions: Store<Session>,
    codes: Store<AuthCode>,
    tokens: Store<RefreshToken>)
}
