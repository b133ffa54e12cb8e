/** The handlers as the server runs them, one call at a time over stores that may have a backend,
    with cleanups and restarts between them, are among the runs of the interleaved server: every
    call is a short sequence of its steps. A call reads the clock once. */
module Sequential {
  import opened Common
  import opened OAuthTypes
  import opened KeyedStore
  import opened Stores
  import opened Grants
  import opened History
  import opened Base64
  import opened Handlers
  import P = Provenance

  datatype Call =
    | Register(register: RegisterRequest, id: Option<string>, secret: Option<string>, net: Net, now: Time)
    | Authorize(authorize: AuthorizeRequest, random: Option<string>, net: Net, now: Time)
    | Complete(sessionId: string, userId: string, random: Option<string>, net: Net, now: Time)
    | Exchange(exchange: CodeRequest, random: Option<string>, net: Net, now: Time)
    | Refresh(refresh: RefreshRequest, random: Option<string>, net: Net, now: Time)
    | Cleanup(now: Time)
    | Restart

  datatype State = State(stores: AuthStores, history: seq<Outcome>)

  function Handle(sha: string -> seq<byte>, s: AuthStores, call: Call): (AuthStores, Outcome) {
    match call
    case Register(req, id, secret, net, now) => RegisterCall(s, req, id, secret, net.first, now)
    case Authorize(req, random, net, now) => AuthorizeCall(s, req, random, net, now)
    case Complete(sessionId, userId, random, net, now) => CompleteCall(s, sessionId, userId, random, net, now)
    case Exchange(req, random, net, now) => ExchangeCall(sha, s, req, random, net, now)
    case Refresh(req, random, net, now) => RefreshCall(s, req, random, net, now)
    case Cleanup(now) => (Swept(s, now), Refused(""))
    case Restart => (Restarted(s), Refused(""))
  }

  function Swept(s: AuthStores, now: Time): AuthStores {
    s.(sessions := s.sessions.(local := Live(s.sessions.local, SessionDeadline, now)),
       codes := s.codes.(local := Live(s.codes.local, CodeDeadline, now)),
       tokens := s.tokens.(local := Live(s.tokens.local, TokenDeadline, now)))
  }

  function Restarted(s: AuthStores): AuthStores {
    AuthStores(Store(map[], s.clients.remote), Store(map[], s.sessions.remote),
               Store(map[], s.codes.remote), Store(map[], s.tokens.remote))
  }

  function Do(sha: string -> seq<byte>, s: State, call: Call): State {
    var (stores, outcome) := Handle(sha, s.stores, call);
    var h :=
      if call.Authorize? then NoteClient(s.history, MadeUp(s.stores, call.authorize, call.net, call.now))
      else s.history;
    State(stores, Note(h, outcome))
  }

  function Run(sha: string -> seq<byte>, s: State, calls: seq<Call>): State
    decreases |calls|
  {
    if calls == [] then s else Run(sha, Do(sha, s, calls[0]), calls[1..])
  }

  /** The interleaved server with nothing in flight. */
  function Project(s: State): P.State {
    P.State(s.stores.clients.local, s.stores.sessions.local, s.stores.codes.local, s.stores.tokens.local, map[],
            s.history)
  }

  // Whatever the backend holds was saved to it.
  ghost predicate ClientRows(r: Remote<Client>, h: seq<Outcome>) {
    r.Table? ==> forall k :: k in r.rows ==> r.rows[k].clientId == k && WasRegistered(h, r.rows[k])
  }

  ghost predicate SessionRows(r: Remote<Session>, h: seq<Outcome>) {
    r.Table? ==> forall k :: k in r.rows ==> WasOpened(h, r.rows[k])
  }

  ghost predicate CodeRows(r: Remote<AuthCode>, h: seq<Outcome>) {
    r.Table? ==> forall k :: k in r.rows ==> WasIssued(h, r.rows[k])
  }

  ghost predicate TokenRows(r: Remote<RefreshToken>, h: seq<Outcome>) {
    r.Table? ==> forall k :: k in r.rows ==> WasGranted(h, r.rows[k])
  }

  ghost predicate RowsOnRecord(s: AuthStores, h: seq<Outcome>) {
    && ClientRows(s.clients.remote, h) && SessionRows(s.sessions.remote, h)
    && CodeRows(s.codes.remote, h) && TokenRows(s.tokens.remote, h)
  }

  lemma RowsLater(s: AuthStores, h: seq<Outcome>, e: Outcome)
    requires RowsOnRecord(s, h)
    ensures RowsOnRecord(s, h + [e])
  {
    Remember(h, e);
  }

  lemma MarkedRows(r: Remote<AuthCode>, code: string, up: bool, h: seq<Outcome>)
    requires CodeRows(r, h)
    ensures CodeRows(MarkedRemote(r, code, up), h)
  {
    if r.Table? && code in r.rows {
      P.UsedOrNot(h, r.rows[code]);
    }
  }

  lemma RegisterRows(sha: string -> seq<byte>, s: State, call: Call)
    requires RowsOnRecord(s.stores, s.history) && call.Register?
    ensures RowsOnRecord(Do(sha, s, call).stores, Do(sha, s, call).history)
  {
    var e := Handle(sha, s.stores, call).1;
    RowsLater(s.stores, s.history, e);
    Remember(s.history, e);
  }

  lemma NewClientRows(s: AuthStores, c: Client, up: bool, h: seq<Outcome>)
    requires RowsOnRecord(s, h)
    ensures RowsOnRecord(s.(clients := Put(s.clients, c.clientId, c, up)), h + [Registered(c)])
  {
    RowsLater(s, h, Registered(c));
    Remember(h, Registered(c));
  }

  lemma NewSessionRows(s: AuthStores, sess: Session, up: bool, h: seq<Outcome>, e: Outcome)
    requires RowsOnRecord(s, h) && e.Opened? && e.session == sess
    ensures RowsOnRecord(s.(sessions := Put(s.sessions, sess.sessionId, sess, up)), h + [e])
  {
    RowsLater(s, h, e);
    Remember(h, e);
  }

  lemma AuthorizeRows(sha: string -> seq<byte>, s: State, call: Call)
    requires RowsOnRecord(s.stores, s.history) && call.Authorize?
    ensures RowsOnRecord(Do(sha, s, call).stores, Do(sha, s, call).history)
  {
    var req := call.authorize;
    var made := MadeUp(s.stores, req, call.net, call.now);
    var stores, h := s.stores, NoteClient(s.history, made);
    if made.Some? {
      NewClientRows(s.stores, made.value, call.net.first, s.history);
      stores := s.stores.(clients := Put(s.stores.clients, req.clientId, made.value, call.net.first));
    } else if Complaint(req).None? {
      var reply := Ask(s.stores.clients.remote, req.clientId, call.net.read);
      stores := s.stores.(clients := Read(s.stores.clients, req.clientId, call.net.read, ClientKey));
    }
    var e := Handle(sha, s.stores, call).1;
    if e.Opened? {
      NewSessionRows(stores, e.session, call.net.second, h, e);
    }
  }

  lemma CompleteRows(sha: string -> seq<byte>, s: State, call: Call)
    requires RowsOnRecord(s.stores, s.history) && call.Complete?
    ensures RowsOnRecord(Do(sha, s, call).stores, Do(sha, s, call).history)
  {
    var e := Handle(sha, s.stores, call).1;
    RowsLater(s.stores, s.history, e);
    Remember(s.history, e);
  }

  lemma ExchangeRows(sha: string -> seq<byte>, s: State, call: Call)
    requires RowsOnRecord(s.stores, s.history) && call.Exchange?
    ensures RowsOnRecord(Do(sha, s, call).stores, Do(sha, s, call).history)
  {
    var (stores, e) := Handle(sha, s.stores, call);
    MarkedRows(s.stores.codes.remote, call.exchange.code, call.net.first, s.history);
    RowsLater(s.stores.(codes := stores.codes), s.history, e);
    Remember(s.history, e);
  }

  lemma RefreshRows(sha: string -> seq<byte>, s: State, call: Call)
    requires RowsOnRecord(s.stores, s.history) && call.Refresh?
    ensures RowsOnRecord(Do(sha, s, call).stores, Do(sha, s, call).history)
  {
    var e := Handle(sha, s.stores, call).1;
    RowsLater(s.stores, s.history, e);
    Remember(s.history, e);
  }

  lemma {:induction false} RunAppend(sha: string -> seq<byte>, s: P.State, a: seq<P.Action>, b: seq<P.Action>)
    ensures P.Run(sha, s, a + b) == P.Run(sha, P.Run(sha, s, a), b)
    decreases |a|
  {
    if a == [] {
      assert a + b == b;
    } else {
      assert (a + b)[1..] == a[1..] + b;
      RunAppend(sha, P.Do(sha, s, a[0]), a[1..], b);
    }
  }

  lemma RunOne(sha: string -> seq<byte>, s: P.State, a: P.Action)
    ensures P.Run(sha, s, [a]) == P.Do(sha, s, a)
  {
    assert [a][1..] == [];
  }

  lemma RunTwo(sha: string -> seq<byte>, s: P.State, a: P.Action, b: P.Action)
    ensures P.Run(sha, s, [a, b]) == P.Do(sha, P.Do(sha, s, a), b)
  {
    assert [a, b][1..] == [b];
    RunOne(sha, P.Do(sha, s, a), b);
  }

  lemma RunThree(sha: string -> seq<byte>, s: P.State, a: P.Action, b: P.Action, c: P.Action)
    ensures P.Run(sha, s, [a, b, c]) == P.Do(sha, P.Do(sha, P.Do(sha, s, a), b), c)
  {
    assert [a, b, c][1..] == [b, c];
    RunTwo(sha, P.Do(sha, s, a), b, c);
  }


  // ---- Each call is a short run ----

  lemma RegisterIsARun(sha: string -> seq<byte>, s: State, call: Call) returns (actions: seq<P.Action>)
    requires call.Register?
    ensures P.Run(sha, Project(s), actions) == Project(Do(sha, s, call))
  {
    if call.register.redirectUris == [] || call.id.None? || call.secret.None? {
      actions := [];
    } else {
      var put := P.RegisterPut(NewClient(call.register, call.id.value, call.secret.value, call.now));
      actions := [put];
      RunOne(sha, Project(s), put);
    }
  }

  lemma Leave(p: P.State, call: P.Call)
    requires p.calls == map[]
    ensures P.Done(P.Next(p, 0, call), 0) == p
  {
    assert map[0 := call] - {0} == map[];
  }

  /** A handler that gives up leaves the server as it is. */
  lemma Quit(sha: string -> seq<byte>, p: P.State, call: P.Call)
    requires p.calls == map[]
    ensures P.Do(sha, P.Next(p, 0, call), P.GiveUp(0)) == p
  {
    Leave(p, call);
  }

  // -- authorize --

  function WithClients(p: P.State, req: AuthorizeRequest, reply: Reply<Client>): P.State {
    p.(clients := Cached(p.clients, req.clientId, reply, ClientKey))
  }

  function WithNewClient(p: P.State, c: Client): P.State {
    P.Note(p.(clients := p.clients[c.clientId := c]), Registered(c))
  }

  function WithSession(p: P.State, req: AuthorizeRequest, client: Client, random: Option<string>, now: Time): P.State {
    if req.redirectUri !in client.redirectUris || random.None? then p
    else
      var sess := NewSession(req, random.value, now);
      P.Note(p.(sessions := p.sessions[random.value := sess]), Opened(sess, client, req))
  }

  lemma LookUpClient(sha: string -> seq<byte>, p: P.State, req: AuthorizeRequest, reply: Reply<Client>)
    requires p.calls == map[] && Complaint(req).None? && P.Credible(p.history, P.AuthorizeLookup(0, req, reply))
    ensures
      var known := Reached(p.clients, req.clientId, reply);
      P.Do(sha, p, P.AuthorizeLookup(0, req, reply)) ==
      P.Next(WithClients(p, req, reply), 0, if known.Some? then P.HasClient(req, known.value) else P.NoClient(req))
  {
  }

  lemma MakeClient(sha: string -> seq<byte>, p: P.State, req: AuthorizeRequest, now: Time)
    ensures P.Do(sha, P.Next(p, 0, P.NoClient(req)), P.AuthorizeRegister(0, now)) ==
            P.Next(WithNewClient(p, AutoClient(req, now)), 0, P.HasClient(req, AutoClient(req, now)))
  {
    var pc := P.HasClient(req, AutoClient(req, now));
    assert p.calls[0 := P.NoClient(req)][0 := pc] == p.calls[0 := pc];
  }

  function LastOf(random: Option<string>, now: Time): P.Action {
    if random.Some? then P.AuthorizeOpen(0, random.value, now) else P.GiveUp(0)
  }

  lemma OpenSession(sha: string -> seq<byte>, p: P.State, req: AuthorizeRequest, client: Client,
                    random: Option<string>, now: Time)
    requires p.calls == map[]
    ensures P.Do(sha, P.Next(p, 0, P.HasClient(req, client)), LastOf(random, now)) ==
            WithSession(p, req, client, random, now)
  {
    Leave(p, P.HasClient(req, client));
  }

  lemma AuthorizeShape(sha: string -> seq<byte>, s: State, call: Call)
    requires call.Authorize? && Complaint(call.authorize).None?
    ensures
      var p, req := Project(s), call.authorize;
      var reply := Ask(s.stores.clients.remote, req.clientId, call.net.read);
      var known := Reached(p.clients, req.clientId, reply);
      Project(Do(sha, s, call)) ==
      if known.Some? then WithSession(WithClients(p, req, reply), req, known.value, call.random, call.now)
      else WithSession(WithNewClient(p, AutoClient(req, call.now)), req, AutoClient(req, call.now), call.random,
                       call.now)
  {
  }

  lemma AuthorizeIsARun(sha: string -> seq<byte>, s: State, call: Call) returns (actions: seq<P.Action>)
    requires RowsOnRecord(s.stores, s.history) && call.Authorize?
    ensures P.Run(sha, Project(s), actions) == Project(Do(sha, s, call))
  {
    var req, p := call.authorize, Project(s);
    if Complaint(req).Some? {
      return [];
    }
    var reply := Ask(s.stores.clients.remote, req.clientId, call.net.read);
    var look, last := P.AuthorizeLookup(0, req, reply), LastOf(call.random, call.now);
    var known := Reached(p.clients, req.clientId, reply);
    AuthorizeShape(sha, s, call);
    LookUpClient(sha, p, req, reply);
    if known.Some? {
      actions := [look, last];
      RunTwo(sha, p, look, last);
      OpenSession(sha, WithClients(p, req, reply), req, known.value, call.random, call.now);
    } else {
      var c, make := AutoClient(req, call.now), P.AuthorizeRegister(0, call.now);
      actions := [look, make, last];
      RunThree(sha, p, look, make, last);
      MakeClient(sha, p, req, call.now);
      OpenSession(sha, WithNewClient(p, c), req, c, call.random, call.now);
    }
  }

  // -- completion --

  function WithSessions(p: P.State, sessionId: string, reply: Reply<Session>): P.State {
    p.(sessions := Cached(p.sessions, sessionId, reply, SessionKey))
  }

  function WithCode(p: P.State, sess: Session, userId: string, random: string, now: Time): P.State {
    var c := NewCode(sess, userId, random, now);
    P.Note(p.(codes := p.codes[random := c]), Issued(c, sess, userId))
  }

  function WithoutSession(p: P.State, sessionId: string): P.State { p.(sessions := p.sessions - {sessionId}) }

  lemma LookUpSession(sha: string -> seq<byte>, p: P.State, sessionId: string, userId: string, reply: Reply<Session>,
                      now: Time)
    requires p.calls == map[] && P.Credible(p.history, P.CompleteLookup(0, sessionId, userId, reply, now))
    ensures
      var held := IfLive(Reached(p.sessions, sessionId, reply), SessionDeadline, now);
      var seen := WithSessions(p, sessionId, reply);
      P.Do(sha, p, P.CompleteLookup(0, sessionId, userId, reply, now)) ==
      if held.None? then seen else P.Next(seen, 0, P.HasSession(sessionId, held.value, userId))
  {
  }

  lemma StoreCode(sha: string -> seq<byte>, p: P.State, sessionId: string, sess: Session, userId: string,
                  random: string, now: Time)
    requires p.calls == map[]
    ensures P.Do(sha, P.Next(p, 0, P.HasSession(sessionId, sess, userId)), P.CompletePut(0, random, now)) ==
            P.Next(WithCode(p, sess, userId, random, now), 0, P.CodeStored(sessionId))
  {
    assert map[0 := P.HasSession(sessionId, sess, userId)][0 := P.CodeStored(sessionId)]
           == map[0 := P.CodeStored(sessionId)];
  }

  lemma EraseSession(sha: string -> seq<byte>, p: P.State, sessionId: string)
    requires p.calls == map[]
    ensures P.Do(sha, P.Next(p, 0, P.CodeStored(sessionId)), P.CompleteErase(0)) == WithoutSession(p, sessionId)
  {
    Leave(WithoutSession(p, sessionId), P.CodeStored(sessionId));
  }

  lemma CompleteShape(sha: string -> seq<byte>, s: State, call: Call)
    requires call.Complete?
    ensures
      var p, reply := Project(s), Ask(s.stores.sessions.remote, call.sessionId, call.net.read);
      var held := IfLive(Reached(p.sessions, call.sessionId, reply), SessionDeadline, call.now);
      var seen := WithSessions(p, call.sessionId, reply);
      Project(Do(sha, s, call)) ==
      if held.None? || call.random.None? then seen
      else WithoutSession(WithCode(seen, held.value, call.userId, call.random.value, call.now), call.sessionId)
  {
  }

  lemma CompleteIsARun(sha: string -> seq<byte>, s: State, call: Call) returns (actions: seq<P.Action>)
    requires RowsOnRecord(s.stores, s.history) && call.Complete?
    ensures P.Run(sha, Project(s), actions) == Project(Do(sha, s, call))
  {
    var p, reply := Project(s), Ask(s.stores.sessions.remote, call.sessionId, call.net.read);
    var look := P.CompleteLookup(0, call.sessionId, call.userId, reply, call.now);
    var held := IfLive(Reached(p.sessions, call.sessionId, reply), SessionDeadline, call.now);
    var seen := WithSessions(p, call.sessionId, reply);
    CompleteShape(sha, s, call);
    LookUpSession(sha, p, call.sessionId, call.userId, reply, call.now);
    if held.None? {
      actions := [look];
      RunOne(sha, p, look);
    } else if call.random.None? {
      actions := [look, P.GiveUp(0)];
      RunTwo(sha, p, look, P.GiveUp(0));
      Quit(sha, seen, P.HasSession(call.sessionId, held.value, call.userId));
    } else {
      var put := P.CompletePut(0, call.random.value, call.now);
      actions := [look, put, P.CompleteErase(0)];
      RunThree(sha, p, look, put, P.CompleteErase(0));
      StoreCode(sha, seen, call.sessionId, held.value, call.userId, call.random.value, call.now);
      EraseSession(sha, WithCode(seen, held.value, call.userId, call.random.value, call.now), call.sessionId);
    }
  }

  // -- code exchange --

  function HeldCodes(p: P.State, code: string, reply: Reply<AuthCode>): map<string, AuthCode> {
    if reply.Found? then Adopted(p.codes, code, reply.value) else p.codes
  }

  function WithClaim(p: P.State, code: string, reply: Reply<AuthCode>, now: Time): P.State {
    p.(codes := Claimed(HeldCodes(p, code, reply), code, now))
  }

  function WithGrant(p: P.State, e: Outcome): P.State
    requires e.Granted?
  {
    P.Note(p.(tokens := p.tokens[e.token.token := e.token]), e)
  }

  lemma TakeCode(sha: string -> seq<byte>, p: P.State, req: CodeRequest, reply: Reply<AuthCode>, now: Time)
    requires p.calls == map[] && Grants.Complete(req) && P.Credible(p.history, P.ExchangeConsume(0, req, reply, now))
    ensures
      var taken, after := Claim(HeldCodes(p, req.code, reply), req.code, now), WithClaim(p, req.code, reply, now);
      P.Do(sha, p, P.ExchangeConsume(0, req, reply, now)) ==
      if taken.None? then after else P.Next(after, 0, P.HasCode(taken.value, req))
  {
  }

  lemma GrantCode(sha: string -> seq<byte>, p: P.State, c: AuthCode, req: CodeRequest, random: string, now: Time)
    requires p.calls == map[]
    ensures P.Do(sha, P.Next(p, 0, P.HasCode(c, req)), P.ExchangeGrant(0, random, now)) ==
            if Matches(sha, c, req) then WithGrant(p, GrantForCode(c, req, random, now)) else p
  {
    Leave(p, P.HasCode(c, req));
  }

  lemma ExchangeShape(sha: string -> seq<byte>, s: State, call: Call)
    requires call.Exchange? && Grants.Complete(call.exchange)
    ensures
      var p, req := Project(s), call.exchange;
      var reply := Ask(s.stores.codes.remote, req.code, call.net.read);
      var taken := Claim(HeldCodes(p, req.code, reply), req.code, call.now);
      var after := WithClaim(p, req.code, reply, call.now);
      Project(Do(sha, s, call)) ==
      if taken.Some? && Matches(sha, taken.value, req) && call.random.Some?
      then WithGrant(after, GrantForCode(taken.value, req, call.random.value, call.now)) else after
  {
    ConsumeShape(s.stores.codes, call.exchange.code, call.net.read, call.net.first, call.now);
  }

  lemma ExchangeIsARun(sha: string -> seq<byte>, s: State, call: Call) returns (actions: seq<P.Action>)
    requires RowsOnRecord(s.stores, s.history) && call.Exchange?
    ensures P.Run(sha, Project(s), actions) == Project(Do(sha, s, call))
  {
    var req, p := call.exchange, Project(s);
    if !Grants.Complete(req) {
      return [];
    }
    var reply := Ask(s.stores.codes.remote, req.code, call.net.read);
    var consume := P.ExchangeConsume(0, req, reply, call.now);
    var taken := Claim(HeldCodes(p, req.code, reply), req.code, call.now);
    var after := WithClaim(p, req.code, reply, call.now);
    ExchangeShape(sha, s, call);
    TakeCode(sha, p, req, reply, call.now);
    if taken.None? {
      actions := [consume];
      RunOne(sha, p, consume);
    } else if call.random.None? {
      actions := [consume, P.GiveUp(0)];
      RunTwo(sha, p, consume, P.GiveUp(0));
      Quit(sha, after, P.HasCode(taken.value, req));
    } else {
      var grant := P.ExchangeGrant(0, call.random.value, call.now);
      actions := [consume, grant];
      RunTwo(sha, p, consume, grant);
      GrantCode(sha, after, taken.value, req, call.random.value, call.now);
    }
  }

  // -- refresh --

  function WithTokens(p: P.State, token: string, reply: Reply<RefreshToken>): P.State {
    p.(tokens := Cached(p.tokens, token, reply, TokenKey))
  }

  function WithoutToken(p: P.State, token: string): P.State { p.(tokens := p.tokens - {token}) }

  lemma LookUpToken(sha: string -> seq<byte>, p: P.State, req: RefreshRequest, reply: Reply<RefreshToken>, now: Time)
    requires p.calls == map[] && req.refreshToken != "" && req.clientId != ""
    requires P.Credible(p.history, P.RefreshLookup(0, req, reply, now))
    ensures
      var held := IfLive(Reached(p.tokens, req.refreshToken, reply), TokenDeadline, now);
      var seen := WithTokens(p, req.refreshToken, reply);
      P.Do(sha, p, P.RefreshLookup(0, req, reply, now)) ==
      if held.None? || held.value.clientId != req.clientId then seen else P.Next(seen, 0, P.HasToken(held.value, req))
  {
  }

  lemma EraseToken(sha: string -> seq<byte>, p: P.State, t: RefreshToken, req: RefreshRequest)
    requires p.calls == map[]
    ensures P.Do(sha, P.Next(p, 0, P.HasToken(t, req)), P.RefreshErase(0)) ==
            P.Next(WithoutToken(p, req.refreshToken), 0, P.TokenErased(t, req))
  {
    assert map[0 := P.HasToken(t, req)][0 := P.TokenErased(t, req)] == map[0 := P.TokenErased(t, req)];
  }

  lemma GrantToken(sha: string -> seq<byte>, p: P.State, t: RefreshToken, req: RefreshRequest, random: string,
                   now: Time)
    requires p.calls == map[]
    ensures P.Do(sha, P.Next(p, 0, P.TokenErased(t, req)), P.RefreshGrant(0, random, now)) ==
            WithGrant(p, GrantForToken(t, req, random, now))
  {
    Leave(p, P.TokenErased(t, req));
  }

  lemma RefreshShape(sha: string -> seq<byte>, s: State, call: Call)
    requires call.Refresh? && call.refresh.refreshToken != "" && call.refresh.clientId != ""
    ensures
      var p, req := Project(s), call.refresh;
      var reply := Ask(s.stores.tokens.remote, req.refreshToken, call.net.read);
      var held := IfLive(Reached(p.tokens, req.refreshToken, reply), TokenDeadline, call.now);
      var seen := WithTokens(p, req.refreshToken, reply);
      Project(Do(sha, s, call)) ==
      if held.None? || held.value.clientId != req.clientId then seen
      else if call.random.None? then WithoutToken(seen, req.refreshToken)
      else WithGrant(WithoutToken(seen, req.refreshToken), GrantForToken(held.value, req, call.random.value, call.now))
  {
  }

  lemma RefreshIsARun(sha: string -> seq<byte>, s: State, call: Call) returns (actions: seq<P.Action>)
    requires RowsOnRecord(s.stores, s.history) && call.Refresh?
    ensures P.Run(sha, Project(s), actions) == Project(Do(sha, s, call))
  {
    var req, p := call.refresh, Project(s);
    if req.refreshToken == "" || req.clientId == "" {
      return [];
    }
    var reply := Ask(s.stores.tokens.remote, req.refreshToken, call.net.read);
    var look, erase := P.RefreshLookup(0, req, reply, call.now), P.RefreshErase(0);
    var held := IfLive(Reached(p.tokens, req.refreshToken, reply), TokenDeadline, call.now);
    var seen := WithTokens(p, req.refreshToken, reply);
    var rest := WithoutToken(seen, req.refreshToken);
    RefreshShape(sha, s, call);
    LookUpToken(sha, p, req, reply, call.now);
    if held.None? || held.value.clientId != req.clientId {
      actions := [look];
      RunOne(sha, p, look);
      return;
    }
    EraseToken(sha, seen, held.value, req);
    if call.random.None? {
      actions := [look, erase, P.GiveUp(0)];
      RunThree(sha, p, look, erase, P.GiveUp(0));
      Quit(sha, rest, P.TokenErased(held.value, req));
    } else {
      var grant := P.RefreshGrant(0, call.random.value, call.now);
      actions := [look, erase, grant];
      RunThree(sha, p, look, erase, grant);
      GrantToken(sha, rest, held.value, req, call.random.value, call.now);
    }
  }

  // -- cleanup and restart --

  lemma RestartIsARun(sha: string -> seq<byte>, s: State) returns (actions: seq<P.Action>)
    ensures P.Run(sha, Project(s), actions) == Project(Do(sha, s, Restart))
  {
    actions := [P.Restart];
    RunOne(sha, Project(s), P.Restart);
  }

  function WithoutExpired(p: P.State, now: Time): P.State {
    p.(sessions := Live(p.sessions, SessionDeadline, now), codes := Live(p.codes, CodeDeadline, now),
       tokens := Live(p.tokens, TokenDeadline, now))
  }

  lemma CleanupShape(sha: string -> seq<byte>, s: State, now: Time)
    ensures Project(Do(sha, s, Cleanup(now))) == WithoutExpired(Project(s), now)
  {
  }

  lemma CleanupIsARun(sha: string -> seq<byte>, s: State, now: Time) returns (actions: seq<P.Action>)
    ensures P.Run(sha, Project(s), actions) == Project(Do(sha, s, Cleanup(now)))
  {
    var a, b, c := P.SweepSessions(now), P.SweepCodes(now), P.SweepTokens(now);
    actions := [a, b, c];
    RunThree(sha, Project(s), a, b, c);
    CleanupShape(sha, s, now);
  }

  lemma CallIsARun(sha: string -> seq<byte>, s: State, call: Call) returns (actions: seq<P.Action>)
    requires RowsOnRecord(s.stores, s.history)
    ensures P.Run(sha, Project(s), actions) == Project(Do(sha, s, call))
    ensures RowsOnRecord(Do(sha, s, call).stores, Do(sha, s, call).history)
  {
    match call
    case Register(_, _, _, _, _) =>
      RegisterRows(sha, s, call);
      actions := RegisterIsARun(sha, s, call);
    case Authorize(_, _, _, _) =>
      AuthorizeRows(sha, s, call);
      actions := AuthorizeIsARun(sha, s, call);
    case Complete(_, _, _, _, _) =>
      CompleteRows(sha, s, call);
      actions := CompleteIsARun(sha, s, call);
    case Exchange(_, _, _, _) =>
      ExchangeRows(sha, s, call);
      actions := ExchangeIsARun(sha, s, call);
    case Refresh(_, _, _, _) =>
      RefreshRows(sha, s, call);
      actions := RefreshIsARun(sha, s, call);
    case Cleanup(now) =>
      actions := CleanupIsARun(sha, s, now);
    case Restart =>
      actions := RestartIsARun(sha, s);
  }

  /** Any sequence of handler calls, cleanups and restarts, with any network outcomes, is a run of
      the interleaved server. */
  lemma {:induction false} CallsAreARun(sha: string -> seq<byte>, s: State, calls: seq<Call>)
    returns (actions: seq<P.Action>)
    requires RowsOnRecord(s.stores, s.history)
    ensures P.Run(sha, Project(s), actions) == Project(Run(sha, s, calls))
    decreases |calls|
  {
    if calls == [] {
      actions := [];
    } else {
      var first := CallIsARun(sha, s, calls[0]);
      var rest := CallsAreARun(sha, Do(sha, s, calls[0]), calls[1..]);
      RunAppend(sha, Project(s), first, rest);
      actions := first + rest;
    }
  }

  /** A server that starts with nothing, with or without a backend. */
  ghost predicate Blank(stores: AuthStores) {
    Project(State(stores, [])) == P.Start && RowsOnRecord(stores, [])
  }

  /** So every token the handlers grant, with or without a backend, has a provenance. */
  lemma HandlersGrantWithProvenance(sha: string -> seq<byte>, stores: AuthStores, calls: seq<Call>, i: nat)
    returns (chain: seq<nat>, ci: nat, si: nat, ri: nat)
    requires Blank(stores)
    requires i < |Run(sha, State(stores, []), calls).history| && Run(sha, State(stores, []), calls).history[i].Granted?
    ensures TracesBack(sha, Run(sha, State(stores, []), calls).history, chain, ci, si, ri) && chain[0] == i
  {
    var actions := CallsAreARun(sha, State(stores, []), calls);
    chain, ci, si, ri := P.EveryGrantHasProvenance(sha, actions, i);
  }

  // ---- How long a chain of tokens can last ----

  lemma HandleIsTimely(sha: string -> seq<byte>, s: AuthStores, call: Call)
    ensures Timely(Handle(sha, s, call).1)
  {
  }

  lemma {:induction false} RunIsTimely(sha: string -> seq<byte>, s: State, calls: seq<Call>)
    requires AllTimely(s.history)
    ensures AllTimely(Run(sha, s, calls).history)
    decreases |calls|
  {
    if calls != [] {
      HandleIsTimely(sha, s.stores, calls[0]);
      RunIsTimely(sha, Do(sha, s, calls[0]), calls[1..]);
    }
  }

  /** With or without a backend and whatever becomes of the network calls, the k-th refresh token of
      a chain (k = 0 for the first) is granted no later than ten minutes, five minutes and k times
      seven days after its session was opened, and its access token expires exactly one hour after
      the grant. Nothing is assumed of the clock readings of different calls. */
  lemma ChainsAreBounded(sha: string -> seq<byte>, stores: AuthStores, calls: seq<Call>, chain: seq<nat>, ci: nat,
                         si: nat, ri: nat)
    requires Blank(stores) && TracesBack(sha, Run(sha, State(stores, []), calls).history, chain, ci, si, ri)
    ensures
      var h := Run(sha, State(stores, []), calls).history;
      var e, k := h[chain[0]], |chain| - 1;
      && e.at <= h[si].session.createdAt + 10 * MINUTE + 5 * MINUTE + k * (7 * DAY)
      && e.token.expiresAt == e.at + 7 * DAY
      && e.access.iat == Unix(e.at) && e.access.exp == Unix(e.at) + 3600
  {
    var actions := CallsAreARun(sha, State(stores, []), calls);
    P.RunKeeps(sha, P.Start, actions);
    RunIsTimely(sha, State(stores, []), calls);
    TraceBound(sha, Run(sha, State(stores, []), calls).history, chain, ci, si, ri);
  }
}
