/** The OAuth server with its handlers interleaved at every store call. Each in-flight handler
    carries what it has read so far; the backend may fail, be slow to forget, or lose writes,
    but only ever returns records that were saved; the process may restart at any moment.
    A run is a sequence of actions; an action that is not enabled changes nothing. */
module Provenance {
  import opened Common
  import opened OAuthTypes
  import opened KeyedStore
  import opened Stores
  import opened Grants
  import opened History
  import opened Base64

  /** Where a handler stands between two of its store calls. */
  datatype Call =
    | NoClient(authorize: AuthorizeRequest)
    | HasClient(authorize: AuthorizeRequest, client: Client)
    | HasSession(sessionId: string, session: Session, userId: string)
    | CodeStored(sessionId: string)
    | HasCode(code: AuthCode, exchange: CodeRequest)
    | HasToken(token: RefreshToken, refresh: RefreshRequest)
    | TokenErased(token: RefreshToken, refresh: RefreshRequest)

  datatype State = State(
    clients: map<string, Client>,
    sessions: map<string, Session>,
    codes: map<string, AuthCode>,
    tokens: map<string, RefreshToken>,
    calls: map<nat, Call>,
    history: seq<Outcome>)

  datatype Action =
    | RegisterPut(client: Client)
    | AuthorizeLookup(id: nat, authorize: AuthorizeRequest, clientReply: Reply<Client>)
    | AuthorizeRegister(id: nat, now: Time)
    | AuthorizeOpen(id: nat, random: string, now: Time)
    | CompleteLookup(id: nat, sessionId: string, userId: string, sessionReply: Reply<Session>, now: Time)
    | CompletePut(id: nat, random: string, now: Time)
    | CompleteErase(id: nat)
    | ExchangeConsume(id: nat, exchange: CodeRequest, codeReply: Reply<AuthCode>, now: Time)
    | ExchangeGrant(id: nat, random: string, now: Time)
    | RefreshLookup(id: nat, refresh: RefreshRequest, tokenReply: Reply<RefreshToken>, now: Time)
    | RefreshErase(id: nat)
    | RefreshGrant(id: nat, random: string, now: Time)
    | FindSession(sessionReply: Reply<Session>)
    | MarkUsed(code: string)
    | SweepSessions(now: Time)
    | SweepCodes(now: Time)
    | SweepTokens(now: Time)
    | GiveUp(id: nat)
    | Restart

  const Start := State(map[], map[], map[], map[], map[], [])

  /** The backend answers with something that was saved under the key it is asked for. */
  ghost predicate Credible(h: seq<Outcome>, a: Action) {
    match a
    case AuthorizeLookup(_, req, Found(c)) => WasRegistered(h, c) && c.clientId == req.clientId
    case CompleteLookup(_, _, _, Found(s), _) => WasOpened(h, s)
    case FindSession(Found(s)) => WasOpened(h, s)
    case ExchangeConsume(_, _, Found(c), _) => WasIssued(h, c)
    case RefreshLookup(_, _, Found(t), _) => WasGranted(h, t)
    case _ => true
  }

  function Next(s: State, id: nat, call: Call): State { s.(calls := s.calls[id := call]) }
  function Done(s: State, id: nat): State { s.(calls := s.calls - {id}) }
  function Note(s: State, e: Outcome): State { s.(history := s.history + [e]) }

  /** The authorization side: registration, authorize and login completion. */
  function DoAuthorize(s: State, a: Action): State {
    match a
    case RegisterPut(c) => Note(s.(clients := s.clients[c.clientId := c]), Registered(c))
    case AuthorizeLookup(id, req, reply) =>
      if id in s.calls || Complaint(req).Some? then s
      else
        var known := Reached(s.clients, req.clientId, reply);
        Next(s.(clients := Cached(s.clients, req.clientId, reply, ClientKey)), id,
             if known.Some? then HasClient(req, known.value) else NoClient(req))
    case AuthorizeRegister(id, now) =>
      if id !in s.calls || !s.calls[id].NoClient? then s
      else
        var req := s.calls[id].authorize;
        var c := AutoClient(req, now);
        Note(Next(s.(clients := s.clients[c.clientId := c]), id, HasClient(req, c)), Registered(c))
    case AuthorizeOpen(id, random, now) =>
      if id !in s.calls || !s.calls[id].HasClient? then s
      else
        var call := s.calls[id];
        if call.authorize.redirectUri !in call.client.redirectUris then Done(s, id)
        else
          var sess := NewSession(call.authorize, random, now);
          Note(Done(s.(sessions := s.sessions[random := sess]), id), Opened(sess, call.client, call.authorize))
    case CompleteLookup(id, sessionId, userId, reply, now) =>
      if id in s.calls then s
      else
        var held := IfLive(Reached(s.sessions, sessionId, reply), SessionDeadline, now);
        var t := s.(sessions := Cached(s.sessions, sessionId, reply, SessionKey));
        if held.None? then t else Next(t, id, HasSession(sessionId, held.value, userId))
    case CompletePut(id, random, now) =>
      if id !in s.calls || !s.calls[id].HasSession? then s
      else
        var call := s.calls[id];
        var c := NewCode(call.session, call.userId, random, now);
        Note(Next(s.(codes := s.codes[random := c]), id, CodeStored(call.sessionId)),
             Issued(c, call.session, call.userId))
    case CompleteErase(id) =>
      if id !in s.calls || !s.calls[id].CodeStored? then s
      else Done(s.(sessions := s.sessions - {s.calls[id].sessionId}), id)
    case FindSession(reply) =>
      if reply.Found? then s.(sessions := s.sessions[reply.value.sessionId := reply.value]) else s
    case _ => s
  }

  /** The token endpoint. */
  function DoToken(sha: string -> seq<byte>, s: State, a: Action): State {
    match a
    case ExchangeConsume(id, req, reply, now) =>
      if id in s.calls || !Complete(req) then s
      else
        var codes := if reply.Found? then Adopted(s.codes, req.code, reply.value) else s.codes;
        var taken := Claim(codes, req.code, now);
        var t := s.(codes := Claimed(codes, req.code, now));
        if taken.None? then t else Next(t, id, HasCode(taken.value, req))
    case ExchangeGrant(id, random, now) =>
      if id !in s.calls || !s.calls[id].HasCode? then s
      else
        var call := s.calls[id];
        if !Matches(sha, call.code, call.exchange) then Done(s, id)
        else
          var grant := GrantForCode(call.code, call.exchange, random, now);
          Note(Done(s.(tokens := s.tokens[random := grant.token]), id), grant)
    case RefreshLookup(id, req, reply, now) =>
      if id in s.calls || req.refreshToken == "" || req.clientId == "" then s
      else
        var held := IfLive(Reached(s.tokens, req.refreshToken, reply), TokenDeadline, now);
        var t := s.(tokens := Cached(s.tokens, req.refreshToken, reply, TokenKey));
        if held.None? || held.value.clientId != req.clientId then t else Next(t, id, HasToken(held.value, req))
    case RefreshErase(id) =>
      if id !in s.calls || !s.calls[id].HasToken? then s
      else
        var call := s.calls[id];
        Next(s.(tokens := s.tokens - {call.refresh.refreshToken}), id, TokenErased(call.token, call.refresh))
    case RefreshGrant(id, random, now) =>
      if id !in s.calls || !s.calls[id].TokenErased? then s
      else
        var call := s.calls[id];
        var grant := GrantForToken(call.token, call.refresh, random, now);
        Note(Done(s.(tokens := s.tokens[random := grant.token]), id), grant)
    case _ => s
  }

  /** Everything that only loses or marks what is held. */
  function DoUpkeep(s: State, a: Action): State {
    match a
    case MarkUsed(code) => s.(codes := MarkedLocal(s.codes, code))
    case SweepSessions(now) => s.(sessions := Live(s.sessions, SessionDeadline, now))
    case SweepCodes(now) => s.(codes := Live(s.codes, CodeDeadline, now))
    case SweepTokens(now) => s.(tokens := Live(s.tokens, TokenDeadline, now))
    case GiveUp(id) => Done(s, id)
    case Restart => s.(clients := map[], sessions := map[], codes := map[], tokens := map[], calls := map[])
    case _ => s
  }

  predicate AtTokenEndpoint(a: Action) {
    a.ExchangeConsume? || a.ExchangeGrant? || a.RefreshLookup? || a.RefreshErase? || a.RefreshGrant?
  }

  predicate IsUpkeep(a: Action) {
    a.MarkUsed? || a.SweepSessions? || a.SweepCodes? || a.SweepTokens? || a.GiveUp? || a.Restart?
  }

  ghost function Do(sha: string -> seq<byte>, s: State, a: Action): State {
    if !Credible(s.history, a) then s
    else if AtTokenEndpoint(a) then DoToken(sha, s, a)
    else if IsUpkeep(a) then DoUpkeep(s, a)
    else DoAuthorize(s, a)
  }

  ghost function Run(sha: string -> seq<byte>, s: State, actions: seq<Action>): State
    decreases |actions|
  {
    if actions == [] then s else Run(sha, Do(sha, s, actions[0]), actions[1..])
  }

  /** A handler only holds records that are on record. */
  ghost predicate Backed(h: seq<Outcome>, call: Call) {
    match call
    case NoClient(req) => Complaint(req).None?
    case HasClient(req, c) => Complaint(req).None? && WasRegistered(h, c) && c.clientId == req.clientId
    case HasSession(_, s, _) => WasOpened(h, s)
    case CodeStored(_) => true
    case HasCode(c, _) => WasIssued(h, c) && c.used
    case HasToken(t, _) => WasGranted(h, t)
    case TokenErased(t, _) => WasGranted(h, t)
  }

  ghost predicate Held(s: State) {
    && (forall k :: k in s.clients ==> s.clients[k].clientId == k && WasRegistered(s.history, s.clients[k]))
    && (forall k :: k in s.sessions ==> WasOpened(s.history, s.sessions[k]))
    && (forall k :: k in s.codes ==> WasIssued(s.history, s.codes[k]))
    && (forall k :: k in s.tokens ==> WasGranted(s.history, s.tokens[k]))
    && (forall id :: id in s.calls ==> Backed(s.history, s.calls[id]))
  }

  ghost predicate Inv(sha: string -> seq<byte>, s: State) {
    Held(s) && WellFormed(sha, s.history)
  }

  /** Noting a justified outcome keeps everything that is held on record. */
  lemma NoteKeeps(sha: string -> seq<byte>, s: State, e: Outcome)
    requires Inv(sha, s) && Justified(sha, s.history, e)
    ensures Inv(sha, Note(s, e))
  {
    Remember(s.history, e);
    Extend(sha, s.history, e);
    forall id | id in s.calls ensures Backed(s.history + [e], s.calls[id]) {
      assert Backed(s.history, s.calls[id]);
    }
  }

  /** The used flag does not matter to where a code comes from. */
  lemma UsedOrNot(h: seq<Outcome>, c: AuthCode)
    requires WasIssued(h, c)
    ensures WasIssued(h, c.(used := true))
  {
    var j :| 0 <= j < |h| && h[j].Issued? && SameCode(h[j].code, c);
    assert SameCode(h[j].code, c.(used := true));
  }

  // Storing a record that is on record, or moving a handler on with one, keeps the invariant.
  lemma KeepClient(sha: string -> seq<byte>, s: State, c: Client)
    requires Inv(sha, s) && WasRegistered(s.history, c)
    ensures Inv(sha, s.(clients := s.clients[c.clientId := c]))
  {
  }

  lemma KeepSession(sha: string -> seq<byte>, s: State, k: string, x: Session)
    requires Inv(sha, s) && WasOpened(s.history, x)
    ensures Inv(sha, s.(sessions := s.sessions[k := x]))
  {
  }

  lemma KeepCode(sha: string -> seq<byte>, s: State, k: string, c: AuthCode)
    requires Inv(sha, s) && WasIssued(s.history, c)
    ensures Inv(sha, s.(codes := s.codes[k := c]))
  {
  }

  lemma KeepToken(sha: string -> seq<byte>, s: State, k: string, t: RefreshToken)
    requires Inv(sha, s) && WasGranted(s.history, t)
    ensures Inv(sha, s.(tokens := s.tokens[k := t]))
  {
  }

  lemma KeepCall(sha: string -> seq<byte>, s: State, id: nat, call: Call)
    requires Inv(sha, s) && Backed(s.history, call)
    ensures Inv(sha, Next(s, id, call))
  {
  }

  lemma KeepDone(sha: string -> seq<byte>, s: State, id: nat)
    requires Inv(sha, s)
    ensures Inv(sha, Done(s, id))
  {
  }

  lemma RegisterKeeps(sha: string -> seq<byte>, s: State, c: Client)
    requires Inv(sha, s)
    ensures Inv(sha, Note(s.(clients := s.clients[c.clientId := c]), Registered(c)))
    ensures WasRegistered(s.history + [Registered(c)], c)
  {
    Remember(s.history, Registered(c));
    NoteKeeps(sha, s, Registered(c));
    KeepClient(sha, Note(s, Registered(c)), c);
  }

  lemma AuthorizeLookupKeeps(sha: string -> seq<byte>, s: State, a: Action)
    requires Inv(sha, s) && Credible(s.history, a) && a.AuthorizeLookup?
    ensures Inv(sha, DoAuthorize(s, a))
  {
    if a.id !in s.calls && Complaint(a.authorize).None? {
      var known := Reached(s.clients, a.authorize.clientId, a.clientReply);
      var t := s.(clients := Cached(s.clients, a.authorize.clientId, a.clientReply, ClientKey));
      if a.clientReply.Found? {
        KeepClient(sha, s, a.clientReply.value);
      }
      KeepCall(sha, t, a.id, if known.Some? then HasClient(a.authorize, known.value) else NoClient(a.authorize));
    }
  }

  lemma AuthorizeRegisterKeeps(sha: string -> seq<byte>, s: State, id: nat, now: Time)
    requires Inv(sha, s)
    ensures Inv(sha, DoAuthorize(s, AuthorizeRegister(id, now)))
  {
    if id in s.calls && s.calls[id].NoClient? {
      var req := s.calls[id].authorize;
      var c := AutoClient(req, now);
      assert Backed(s.history, s.calls[id]);
      RegisterKeeps(sha, s, c);
      KeepCall(sha, Note(s.(clients := s.clients[c.clientId := c]), Registered(c)), id, HasClient(req, c));
    }
  }

  lemma AuthorizeOpenKeeps(sha: string -> seq<byte>, s: State, id: nat, random: string, now: Time)
    requires Inv(sha, s)
    ensures Inv(sha, DoAuthorize(s, AuthorizeOpen(id, random, now)))
  {
    if id in s.calls && s.calls[id].HasClient? {
      var call := s.calls[id];
      assert Backed(s.history, call);
      KeepDone(sha, s, id);
      if call.authorize.redirectUri in call.client.redirectUris {
        var sess := NewSession(call.authorize, random, now);
        var e := Opened(sess, call.client, call.authorize);
        NoteKeeps(sha, Done(s, id), e);
        Remember(s.history, e);
        KeepSession(sha, Note(Done(s, id), e), random, sess);
      }
    }
  }

  lemma CompleteLookupKeeps(sha: string -> seq<byte>, s: State, a: Action)
    requires Inv(sha, s) && Credible(s.history, a) && a.CompleteLookup?
    ensures Inv(sha, DoAuthorize(s, a))
  {
    if a.id !in s.calls {
      var held := IfLive(Reached(s.sessions, a.sessionId, a.sessionReply), SessionDeadline, a.now);
      var t := s.(sessions := Cached(s.sessions, a.sessionId, a.sessionReply, SessionKey));
      if a.sessionReply.Found? {
        KeepSession(sha, s, a.sessionReply.value.sessionId, a.sessionReply.value);
      }
      if held.Some? {
        KeepCall(sha, t, a.id, HasSession(a.sessionId, held.value, a.userId));
      }
    }
  }

  lemma CompletePutKeeps(sha: string -> seq<byte>, s: State, id: nat, random: string, now: Time)
    requires Inv(sha, s)
    ensures Inv(sha, DoAuthorize(s, CompletePut(id, random, now)))
  {
    if id in s.calls && s.calls[id].HasSession? {
      var call := s.calls[id];
      assert Backed(s.history, call);
      var c := NewCode(call.session, call.userId, random, now);
      var t := Next(s, id, CodeStored(call.sessionId));
      KeepCall(sha, s, id, CodeStored(call.sessionId));
      NoteKeeps(sha, t, Issued(c, call.session, call.userId));
      Remember(s.history, Issued(c, call.session, call.userId));
      KeepCode(sha, Note(t, Issued(c, call.session, call.userId)), random, c);
    }
  }

  lemma AuthorizeKeeps(sha: string -> seq<byte>, s: State, a: Action)
    requires Inv(sha, s) && Credible(s.history, a)
    ensures Inv(sha, DoAuthorize(s, a))
  {
    match a
    case RegisterPut(c) => RegisterKeeps(sha, s, c);
    case AuthorizeLookup(_, _, _) => AuthorizeLookupKeeps(sha, s, a);
    case AuthorizeRegister(id, now) => AuthorizeRegisterKeeps(sha, s, id, now);
    case AuthorizeOpen(id, random, now) => AuthorizeOpenKeeps(sha, s, id, random, now);
    case CompleteLookup(_, _, _, _, _) => CompleteLookupKeeps(sha, s, a);
    case CompletePut(id, random, now) => CompletePutKeeps(sha, s, id, random, now);
    case FindSession(reply) =>
      if reply.Found? {
        KeepSession(sha, s, reply.value.sessionId, reply.value);
      }
    case _ =>
  }

  lemma ClaimKeeps(sha: string -> seq<byte>, s: State, id: nat, req: CodeRequest, now: Time)
    requires Inv(sha, s) && Claim(s.codes, req.code, now).Some?
    ensures Inv(sha, Next(s.(codes := Claimed(s.codes, req.code, now)), id,
                          HasCode(Claim(s.codes, req.code, now).value, req)))
  {
    var c := Claim(s.codes, req.code, now).value;
    UsedOrNot(s.history, s.codes[req.code]);
    KeepCode(sha, s, req.code, c);
    KeepCall(sha, s.(codes := s.codes[req.code := c]), id, HasCode(c, req));
  }

  lemma ExchangeConsumeKeeps(sha: string -> seq<byte>, s: State, a: Action)
    requires Inv(sha, s) && Credible(s.history, a) && a.ExchangeConsume?
    ensures Inv(sha, DoToken(sha, s, a))
  {
    if a.id !in s.calls && Complete(a.exchange) {
      var code := a.exchange.code;
      var t := if a.codeReply.Found? then s.(codes := Adopted(s.codes, code, a.codeReply.value)) else s;
      if a.codeReply.Found? {
        KeepCode(sha, s, code, a.codeReply.value);
      }
      if Claim(t.codes, code, a.now).Some? {
        ClaimKeeps(sha, t, a.id, a.exchange, a.now);
      }
    }
  }

  lemma ExchangeGrantKeeps(sha: string -> seq<byte>, s: State, id: nat, random: string, now: Time)
    requires Inv(sha, s)
    ensures Inv(sha, DoToken(sha, s, ExchangeGrant(id, random, now)))
  {
    if id in s.calls && s.calls[id].HasCode? {
      var call := s.calls[id];
      assert Backed(s.history, call);
      KeepDone(sha, s, id);
      if Matches(sha, call.code, call.exchange) {
        CodeGrantJustified(sha, s.history, call.code, call.exchange, random, now);
        GrantKeeps(sha, Done(s, id), random, GrantForCode(call.code, call.exchange, random, now));
      }
    }
  }

  lemma GrantKeeps(sha: string -> seq<byte>, s: State, k: string, e: Outcome)
    requires Inv(sha, s) && e.Granted? && Justified(sha, s.history, e)
    ensures Inv(sha, Note(s.(tokens := s.tokens[k := e.token]), e))
  {
    NoteKeeps(sha, s, e);
    Remember(s.history, e);
    KeepToken(sha, Note(s, e), k, e.token);
  }

  lemma RefreshLookupKeeps(sha: string -> seq<byte>, s: State, a: Action)
    requires Inv(sha, s) && Credible(s.history, a) && a.RefreshLookup?
    ensures Inv(sha, DoToken(sha, s, a))
  {
    var req := a.refresh;
    if a.id !in s.calls && req.refreshToken != "" && req.clientId != "" {
      var held := IfLive(Reached(s.tokens, req.refreshToken, a.tokenReply), TokenDeadline, a.now);
      var t := s.(tokens := Cached(s.tokens, req.refreshToken, a.tokenReply, TokenKey));
      if a.tokenReply.Found? {
        KeepToken(sha, s, a.tokenReply.value.token, a.tokenReply.value);
      }
      if held.Some? {
        KeepCall(sha, t, a.id, HasToken(held.value, req));
      }
    }
  }

  lemma RefreshEraseKeeps(sha: string -> seq<byte>, s: State, id: nat)
    requires Inv(sha, s)
    ensures Inv(sha, DoToken(sha, s, RefreshErase(id)))
  {
    if id in s.calls && s.calls[id].HasToken? {
      var call := s.calls[id];
      assert Backed(s.history, call);
      KeepCall(sha, s, id, TokenErased(call.token, call.refresh));
    }
  }

  lemma RefreshGrantKeeps(sha: string -> seq<byte>, s: State, id: nat, random: string, now: Time)
    requires Inv(sha, s)
    ensures Inv(sha, DoToken(sha, s, RefreshGrant(id, random, now)))
  {
    if id in s.calls && s.calls[id].TokenErased? {
      var call := s.calls[id];
      assert Backed(s.history, call);
      KeepDone(sha, s, id);
      TokenGrantJustified(sha, s.history, call.token, call.refresh, random, now);
      GrantKeeps(sha, Done(s, id), random, GrantForToken(call.token, call.refresh, random, now));
    }
  }

  lemma TokenKeeps(sha: string -> seq<byte>, s: State, a: Action)
    requires Inv(sha, s) && Credible(s.history, a)
    ensures Inv(sha, DoToken(sha, s, a))
  {
    match a
    case ExchangeConsume(_, _, _, _) => ExchangeConsumeKeeps(sha, s, a);
    case ExchangeGrant(id, random, now) => ExchangeGrantKeeps(sha, s, id, random, now);
    case RefreshLookup(_, _, _, _) => RefreshLookupKeeps(sha, s, a);
    case RefreshErase(id) => RefreshEraseKeeps(sha, s, id);
    case RefreshGrant(id, random, now) => RefreshGrantKeeps(sha, s, id, random, now);
    case _ =>
  }

  lemma UpkeepKeeps(sha: string -> seq<byte>, s: State, a: Action)
    requires Inv(sha, s)
    ensures Inv(sha, DoUpkeep(s, a))
  {
    if a.MarkUsed? && a.code in s.codes {
      UsedOrNot(s.history, s.codes[a.code]);
    }
  }

  lemma {:induction false} RunKeeps(sha: string -> seq<byte>, s: State, actions: seq<Action>)
    requires Inv(sha, s)
    ensures Inv(sha, Run(sha, s, actions))
    decreases |actions|
  {
    if actions != [] {
      var a := actions[0];
      if Credible(s.history, a) {
        AuthorizeKeeps(sha, s, a);
        TokenKeeps(sha, s, a);
        UpkeepKeeps(sha, s, a);
      }
      RunKeeps(sha, Do(sha, s, a), actions[1..]);
    }
  }

  /** In every run, every refresh and access token ever granted goes back, through rotations
      that keep its user, client and scope, to one consumed code whose client, redirect URI
      and challenge matched the exchange, and from there to one S256 authorize request whose
      redirect URI was listed in the client record its handler looked up or registered. */
  lemma EveryGrantHasProvenance(sha: string -> seq<byte>, actions: seq<Action>, i: nat)
    returns (chain: seq<nat>, ci: nat, si: nat, ri: nat)
    requires i < |Run(sha, Start, actions).history| && Run(sha, Start, actions).history[i].Granted?
    ensures TracesBack(sha, Run(sha, Start, actions).history, chain, ci, si, ri) && chain[0] == i
  {
    RunKeeps(sha, Start, actions);
    chain, ci, si, ri := Trace(sha, Run(sha, Start, actions).history, i);
  }

  /** Every refresh token a store or a handler holds was granted, so it has such a provenance. */
  lemma EveryHeldTokenWasGranted(sha: string -> seq<byte>, actions: seq<Action>, k: string)
    requires k in Run(sha, Start, actions).tokens
    ensures WasGranted(Run(sha, Start, actions).history, Run(sha, Start, actions).tokens[k])
  {
    RunKeeps(sha, Start, actions);
  }
}
