/** Two things a caller of the stores must never notice: that records are kept twice, here
    and on vire-server, with the local copies lost at every restart; and that `Cleanup`
    removes records. */
module Transparency {
  import opened Common
  import opened OAuthTypes
  import opened KeyedStore
  import opened Stores

  datatype Op =
    | PutClient(client: Client)
    | GetClient(id: string)
    | PutSession(session: Session)
    | GetSession(id: string)
    | DeleteSession(id: string)
    | NewestSession(clientId: string)
    | PutCode(code: AuthCode)
    | GetCode(id: string)
    | MarkUsed(id: string)
    | ConsumeCode(id: string)
    | PutToken(token: RefreshToken)
    | GetToken(id: string)
    | DeleteToken(id: string)
    | CleanupSessions
    | CleanupCodes
    | CleanupTokens
    | Restart
  {
    /** Operations that return nothing to their caller and should leave no trace. */
    predicate Hidden() { CleanupSessions? || CleanupCodes? || CleanupTokens? || Restart? }
  }

  datatype Answer =
    | Ack
    | OfClient(client: Option<Client>)
    | OfSession(session: Option<Session>)
    | OfCode(code: Option<AuthCode>)
    | OfToken(token: Option<RefreshToken>)

  datatype Timed = Timed(op: Op, at: Time)

  /** The stores after an operation when every backend call goes through. */
  function After(s: AuthStores, op: Op, now: Time): AuthStores {
    match op
    case PutClient(c) => s.(clients := Put(s.clients, c.clientId, c, true))
    case GetClient(id) => s.(clients := Read(s.clients, id, true, ClientKey))
    case PutSession(x) => s.(sessions := Put(s.sessions, x.sessionId, x, true))
    case GetSession(id) => s.(sessions := Read(s.sessions, id, true, SessionKey))
    case DeleteSession(id) => s.(sessions := Delete(s.sessions, id, true))
    case NewestSession(_) => s
    case PutCode(c) => s.(codes := Put(s.codes, c.code, c, true))
    case GetCode(id) => s.(codes := Read(s.codes, id, true, CodeKey))
    case MarkUsed(id) => s.(codes := Store(MarkedLocal(s.codes.local, id), MarkedRemote(s.codes.remote, id, true)))
    case ConsumeCode(id) => s.(codes := Consume(s.codes, id, true, true, now).0)
    case PutToken(t) => s.(tokens := Put(s.tokens, t.token, t, true))
    case GetToken(id) => s.(tokens := Read(s.tokens, id, true, TokenKey))
    case DeleteToken(id) => s.(tokens := Delete(s.tokens, id, true))
    case CleanupSessions => s.(sessions := s.sessions.(local := Live(s.sessions.local, SessionDeadline, now)))
    case CleanupCodes => s.(codes := s.codes.(local := Live(s.codes.local, CodeDeadline, now)))
    case CleanupTokens => s.(tokens := s.tokens.(local := Live(s.tokens.local, TokenDeadline, now)))
    case Restart =>
      AuthStores(s.clients.(local := map[]), s.sessions.(local := map[]),
                 s.codes.(local := map[]), s.tokens.(local := map[]))
  }

  function Result<V>(s: Store<V>, id: string): Option<V> {
    Reached(s.local, id, Ask(s.remote, id, true))
  }

  /** Whether a visible operation may answer `a`. Only the newest-session scan has a choice. */
  ghost predicate MayAnswer(s: AuthStores, op: Op, now: Time, a: Answer) {
    match op
    case GetClient(id) => a == OfClient(Result(s.clients, id))
    case GetSession(id) => a == OfSession(IfLive(Result(s.sessions, id), SessionDeadline, now))
    case GetCode(id) => a == OfCode(IfLive(Result(s.codes, id), CodeDeadline, now))
    case GetToken(id) => a == OfToken(IfLive(Result(s.tokens, id), TokenDeadline, now))
    case ConsumeCode(id) => a == OfCode(Consume(s.codes, id, true, true, now).1)
    case NewestSession(clientId) => a.OfSession? && IsNewest(s.sessions.local, clientId, now, a.session)
    case _ => a == Ack
  }

  /** `answers` is a possible sequence of answers to the visible operations of `ops`. */
  ghost predicate Explains(s: AuthStores, ops: seq<Timed>, answers: seq<Answer>)
    decreases |ops|
  {
    if ops == [] then answers == []
    else
      var next := After(s, ops[0].op, ops[0].at);
      if ops[0].op.Hidden() then Explains(next, ops[1..], answers)
      else answers != [] && MayAnswer(s, ops[0].op, ops[0].at, answers[0]) && Explains(next, ops[1..], answers[1..])
  }

  function Visible(ops: seq<Timed>): seq<Timed>
    decreases |ops|
  {
    if ops == [] then []
    else if ops[0].op.Hidden() then Visible(ops[1..])
    else [ops[0]] + Visible(ops[1..])
  }

  function Detached4(): AuthStores {
    AuthStores(Store(map[], Detached), Store(map[], Detached), Store(map[], Detached), Store(map[], Detached))
  }

  function Attached4(): AuthStores {
    AuthStores(Store(map[], Table(map[])), Store(map[], Table(map[])), Store(map[], Table(map[])),
               Store(map[], Table(map[])))
  }

  // ---- Local maps over a remote table act as one plain map ----

  predicate Within<V(==)>(local: map<string, V>, rows: map<string, V>) {
    forall k :: k in local ==> k in rows && local[k] == rows[k]
  }

  /** The coupling: the local copies are among the rows, and the rows are the plain map. */
  predicate Coupled<V(==)>(s: Store<V>, plain: Store<V>, key: V -> string) {
    && s.remote.Table? && plain.remote.Detached?
    && s.remote.rows == plain.local
    && Within(s.local, s.remote.rows)
    && (forall k :: k in plain.local ==> key(plain.local[k]) == k)
  }

  predicate Coupled4(s: AuthStores, plain: AuthStores) {
    && Coupled(s.clients, plain.clients, ClientKey)
    && Coupled(s.sessions, plain.sessions, SessionKey)
    && Coupled(s.codes, plain.codes, CodeKey)
    && Coupled(s.tokens, plain.tokens, TokenKey)
  }

  lemma CoupledPut<V>(s: Store<V>, plain: Store<V>, key: V -> string, id: string, v: V)
    requires Coupled(s, plain, key) && key(v) == id
    ensures Coupled(Put(s, id, v, true), Put(plain, id, v, true), key)
  {
  }

  lemma CoupledDelete<V>(s: Store<V>, plain: Store<V>, key: V -> string, id: string)
    requires Coupled(s, plain, key)
    ensures Coupled(Delete(s, id, true), Delete(plain, id, true), key)
  {
  }

  lemma CoupledRead<V>(s: Store<V>, plain: Store<V>, key: V -> string, id: string)
    requires Coupled(s, plain, key)
    ensures Result(s, id) == Result(plain, id)
    ensures Coupled(Read(s, id, true, key), Read(plain, id, true, key), key)
  {
  }

  lemma CoupledCodes(s: Store<AuthCode>, plain: Store<AuthCode>, id: string, now: Time)
    requires Coupled(s, plain, CodeKey)
    ensures Consume(s, id, true, true, now).1 == Consume(plain, id, true, true, now).1
    ensures Coupled(Consume(s, id, true, true, now).0, Consume(plain, id, true, true, now).0, CodeKey)
    ensures Coupled(Store(MarkedLocal(s.local, id), MarkedRemote(s.remote, id, true)),
                    Store(MarkedLocal(plain.local, id), MarkedRemote(plain.remote, id, true)), CodeKey)
  {
  }

  /** Losing any of the local copies keeps the coupling. */
  lemma CoupledLoss<V>(s: Store<V>, plain: Store<V>, key: V -> string, kept: map<string, V>)
    requires Coupled(s, plain, key) && Within(kept, s.local)
    ensures Coupled(s.(local := kept), plain, key)
  {
  }

  predicate OnCodesOrTokens(op: Op) {
    op.PutCode? || op.GetCode? || op.MarkUsed? || op.ConsumeCode? || op.PutToken? || op.GetToken? || op.DeleteToken?
  }

  lemma CoupledAfterLogin(s: AuthStores, plain: AuthStores, op: Op, now: Time)
    requires Coupled4(s, plain) && !op.Hidden() && !OnCodesOrTokens(op)
    ensures Coupled4(After(s, op, now), After(plain, op, now))
  {
    match op
    case PutClient(c) => CoupledPut(s.clients, plain.clients, ClientKey, c.clientId, c);
    case GetClient(id) => CoupledRead(s.clients, plain.clients, ClientKey, id);
    case PutSession(x) => CoupledPut(s.sessions, plain.sessions, SessionKey, x.sessionId, x);
    case GetSession(id) => CoupledRead(s.sessions, plain.sessions, SessionKey, id);
    case DeleteSession(id) => CoupledDelete(s.sessions, plain.sessions, SessionKey, id);
    case NewestSession(_) =>
  }

  lemma CoupledAfterGrant(s: AuthStores, plain: AuthStores, op: Op, now: Time)
    requires Coupled4(s, plain) && OnCodesOrTokens(op)
    ensures Coupled4(After(s, op, now), After(plain, op, now))
  {
    match op
    case PutCode(c) => CoupledPut(s.codes, plain.codes, CodeKey, c.code, c);
    case GetCode(id) => CoupledRead(s.codes, plain.codes, CodeKey, id);
    case MarkUsed(id) => CoupledCodes(s.codes, plain.codes, id, now);
    case ConsumeCode(id) => CoupledCodes(s.codes, plain.codes, id, now);
    case PutToken(t) => CoupledPut(s.tokens, plain.tokens, TokenKey, t.token, t);
    case GetToken(id) => CoupledRead(s.tokens, plain.tokens, TokenKey, id);
    case DeleteToken(id) => CoupledDelete(s.tokens, plain.tokens, TokenKey, id);
  }

  lemma CoupledAfterLoss(s: AuthStores, plain: AuthStores, op: Op, now: Time)
    requires Coupled4(s, plain) && op.Hidden()
    ensures Coupled4(After(s, op, now), plain)
  {
    match op
    case CleanupSessions =>
      CoupledLoss(s.sessions, plain.sessions, SessionKey, Live(s.sessions.local, SessionDeadline, now));
    case CleanupCodes => CoupledLoss(s.codes, plain.codes, CodeKey, Live(s.codes.local, CodeDeadline, now));
    case CleanupTokens => CoupledLoss(s.tokens, plain.tokens, TokenKey, Live(s.tokens.local, TokenDeadline, now));
    case Restart =>
  }

  lemma CoupledAfter(s: AuthStores, plain: AuthStores, op: Op, now: Time)
    requires Coupled4(s, plain)
    ensures Coupled4(After(s, op, now), if op.Hidden() then plain else After(plain, op, now))
  {
    if op.Hidden() {
      CoupledAfterLoss(s, plain, op, now);
    } else if OnCodesOrTokens(op) {
      CoupledAfterGrant(s, plain, op, now);
    } else {
      CoupledAfterLogin(s, plain, op, now);
    }
  }

  lemma CoupledAnswers(s: AuthStores, plain: AuthStores, op: Op, now: Time, a: Answer)
    requires Coupled4(s, plain) && !op.Hidden() && !op.NewestSession?
    ensures MayAnswer(s, op, now, a) <==> MayAnswer(plain, op, now, a)
  {
    match op
    case GetClient(id) => CoupledRead(s.clients, plain.clients, ClientKey, id);
    case GetSession(id) => CoupledRead(s.sessions, plain.sessions, SessionKey, id);
    case GetCode(id) => CoupledRead(s.codes, plain.codes, CodeKey, id);
    case ConsumeCode(id) => CoupledCodes(s.codes, plain.codes, id, now);
    case GetToken(id) => CoupledRead(s.tokens, plain.tokens, TokenKey, id);
    case _ =>
  }

  lemma {:induction false} CoupledRun(s: AuthStores, plain: AuthStores, ops: seq<Timed>, answers: seq<Answer>)
    requires Coupled4(s, plain)
    requires forall i :: 0 <= i < |ops| ==> !ops[i].op.NewestSession?
    ensures Explains(s, ops, answers) <==> Explains(plain, Visible(ops), answers)
    decreases |ops|
  {
    if ops != [] {
      var op, now := ops[0].op, ops[0].at;
      CoupledAfter(s, plain, op, now);
      if op.Hidden() {
        CoupledRun(After(s, op, now), plain, ops[1..], answers);
      } else if answers != [] {
        CoupledAnswers(s, plain, op, now, answers[0]);
        CoupledRun(After(s, op, now), After(plain, op, now), ops[1..], answers[1..]);
        assert Visible(ops)[1..] == Visible(ops[1..]);
      }
    }
  }

  /** With a backend that works, the stores answer any sequence of operations, restarts and
      cleanups as plain maps answer the operations alone. */
  lemma RestartsAreTransparent(ops: seq<Timed>, answers: seq<Answer>)
    requires forall i :: 0 <= i < |ops| ==> !ops[i].op.NewestSession?
    ensures Explains(Attached4(), ops, answers) <==> Explains(Detached4(), Visible(ops), answers)
  {
    CoupledRun(Attached4(), Detached4(), ops, answers);
  }

  // ---- Cleanup is unobservable ----

  predicate SameLive<V(==)>(s: Store<V>, t: Store<V>, deadline: V -> Time, now: Time) {
    s.remote.Detached? && t.remote.Detached? && Live(s.local, deadline, now) == Live(t.local, deadline, now)
  }

  /** The two states hold the same unexpired records at `now`. */
  predicate SameLive4(s: AuthStores, t: AuthStores, now: Time) {
    && s.clients == t.clients && s.clients.remote.Detached?
    && SameLive(s.sessions, t.sessions, SessionDeadline, now)
    && SameLive(s.codes, t.codes, CodeDeadline, now)
    && SameLive(s.tokens, t.tokens, TokenDeadline, now)
  }

  predicate InOrder(ops: seq<Timed>, now: Time) {
    && (forall i :: 0 <= i < |ops| ==> now <= ops[i].at)
    && (forall i, j :: 0 <= i < j < |ops| ==> ops[i].at <= ops[j].at)
  }

  lemma LivePut<V>(m: map<string, V>, k: string, v: V, deadline: V -> Time, now: Time)
    ensures Live(m[k := v], deadline, now) ==
            if now <= deadline(v) then Live(m, deadline, now)[k := v] else Live(m, deadline, now) - {k}
  {
  }

  lemma LiveDelete<V>(m: map<string, V>, k: string, deadline: V -> Time, now: Time)
    ensures Live(m - {k}, deadline, now) == Live(m, deadline, now) - {k}
  {
  }

  lemma LiveAgain<V>(m: map<string, V>, deadline: V -> Time, now: Time, later: Time)
    requires now <= later
    ensures Live(Live(m, deadline, now), deadline, later) == Live(m, deadline, later)
  {
  }

  lemma LiveRead<V>(m: map<string, V>, k: string, deadline: V -> Time, now: Time)
    ensures IfLive(Reached(m, k, Missing), deadline, now) == Reached(Live(m, deadline, now), k, Missing)
  {
  }

  /** Expired sessions are never candidates of the newest-session scan. */
  lemma NewestAmongLive(m: map<string, Session>, clientId: string, now: Time, best: Option<Session>)
    ensures IsNewest(m, clientId, now, best) <==> IsNewest(Live(m, SessionDeadline, now), clientId, now, best)
  {
    var live := Live(m, SessionDeadline, now);
    assert forall k :: k in live ==> k in m && live[k] == m[k];
    assert forall k :: k in m && Pending(m[k], clientId, now) ==> k in live && live[k] == m[k];
    if best.Some? && IsNewest(m, clientId, now, best) {
      var k :| k in m && m[k] == best.value;
      assert k in live && live[k] == best.value;
    }
  }

  lemma SameLiveLater(s: AuthStores, t: AuthStores, now: Time, later: Time)
    requires SameLive4(s, t, now) && now <= later
    ensures SameLive4(s, t, later)
  {
    LiveAgain(s.sessions.local, SessionDeadline, now, later);
    LiveAgain(t.sessions.local, SessionDeadline, now, later);
    LiveAgain(s.codes.local, CodeDeadline, now, later);
    LiveAgain(t.codes.local, CodeDeadline, now, later);
    LiveAgain(s.tokens.local, TokenDeadline, now, later);
    LiveAgain(t.tokens.local, TokenDeadline, now, later);
  }

  lemma SameLiveWrites(s: AuthStores, t: AuthStores, op: Op, now: Time)
    requires SameLive4(s, t, now) && !op.Hidden()
    ensures SameLive4(After(s, op, now), After(t, op, now), now)
  {
    match op
    case PutSession(x) =>
      LivePut(s.sessions.local, x.sessionId, x, SessionDeadline, now);
      LivePut(t.sessions.local, x.sessionId, x, SessionDeadline, now);
    case DeleteSession(id) =>
      LiveDelete(s.sessions.local, id, SessionDeadline, now);
      LiveDelete(t.sessions.local, id, SessionDeadline, now);
    case PutCode(c) =>
      LivePut(s.codes.local, c.code, c, CodeDeadline, now);
      LivePut(t.codes.local, c.code, c, CodeDeadline, now);
    case MarkUsed(id) =>
      LiveMark(s.codes.local, id, now);
      LiveMark(t.codes.local, id, now);
    case ConsumeCode(id) =>
      LiveClaim(s.codes.local, id, now);
      LiveClaim(t.codes.local, id, now);
    case PutToken(x) =>
      LivePut(s.tokens.local, x.token, x, TokenDeadline, now);
      LivePut(t.tokens.local, x.token, x, TokenDeadline, now);
    case DeleteToken(id) =>
      LiveDelete(s.tokens.local, id, TokenDeadline, now);
      LiveDelete(t.tokens.local, id, TokenDeadline, now);
    case _ =>
  }

  lemma LiveMark(m: map<string, AuthCode>, id: string, now: Time)
    ensures Live(MarkedLocal(m, id), CodeDeadline, now) == MarkedLocal(Live(m, CodeDeadline, now), id)
  {
  }

  lemma LiveClaim(m: map<string, AuthCode>, id: string, now: Time)
    ensures Claim(m, id, now) == Claim(Live(m, CodeDeadline, now), id, now)
    ensures Live(Claimed(m, id, now), CodeDeadline, now) == Claimed(Live(m, CodeDeadline, now), id, now)
  {
  }

  lemma SameLiveAnswers(s: AuthStores, t: AuthStores, op: Op, now: Time, a: Answer)
    requires SameLive4(s, t, now) && !op.Hidden()
    ensures MayAnswer(s, op, now, a) <==> MayAnswer(t, op, now, a)
  {
    match op
    case GetSession(id) =>
      LiveRead(s.sessions.local, id, SessionDeadline, now);
      LiveRead(t.sessions.local, id, SessionDeadline, now);
    case GetCode(id) =>
      LiveRead(s.codes.local, id, CodeDeadline, now);
      LiveRead(t.codes.local, id, CodeDeadline, now);
    case GetToken(id) =>
      LiveRead(s.tokens.local, id, TokenDeadline, now);
      LiveRead(t.tokens.local, id, TokenDeadline, now);
    case ConsumeCode(id) =>
      LiveClaim(s.codes.local, id, now);
      LiveClaim(t.codes.local, id, now);
    case NewestSession(clientId) =>
      if a.OfSession? {
        NewestAmongLive(s.sessions.local, clientId, now, a.session);
        NewestAmongLive(t.sessions.local, clientId, now, a.session);
      }
    case _ =>
  }

  lemma {:induction false} SameLiveRun(s: AuthStores, t: AuthStores, now: Time, ops: seq<Timed>, answers: seq<Answer>)
    requires SameLive4(s, t, now) && InOrder(ops, now)
    requires forall i :: 0 <= i < |ops| ==> !ops[i].op.Restart?
    ensures Explains(s, ops, answers) <==> Explains(t, Visible(ops), answers)
    decreases |ops|
  {
    if ops != [] {
      var op, at := ops[0].op, ops[0].at;
      SameLiveLater(s, t, now, at);
      if op.Hidden() {
        LiveAgain(s.sessions.local, SessionDeadline, at, at);
        LiveAgain(s.codes.local, CodeDeadline, at, at);
        LiveAgain(s.tokens.local, TokenDeadline, at, at);
        SameLiveRun(After(s, op, at), t, at, ops[1..], answers);
      } else if answers != [] {
        SameLiveAnswers(s, t, op, at, answers[0]);
        SameLiveWrites(s, t, op, at);
        SameLiveRun(After(s, op, at), After(t, op, at), at, ops[1..], answers[1..]);
        assert Visible(ops)[1..] == Visible(ops[1..]);
      }
    }
  }

  /** Without a backend and with a clock that never runs backwards, cleanups inserted anywhere
      leave exactly the same answers possible, the newest-session scan's included. */
  lemma CleanupIsUnobservable(ops: seq<Timed>, now: Time, answers: seq<Answer>)
    requires InOrder(ops, now)
    requires forall i :: 0 <= i < |ops| ==> !ops[i].op.Restart?
    ensures Explains(Detached4(), ops, answers) <==> Explains(Detached4(), Visible(ops), answers)
  {
    SameLiveRun(Detached4(), Detached4(), now, ops, answers);
  }
}
