/** What can be spent is spent once: the OAuth server one handler call at a time, with or without a
    backend, with cleanups and restarts at any moment and any clock readings, as long as random
    values are not repeated. With a backend this holds exactly as long as no spent record stays
    behind in it because the call that should have erased it there failed. */
module OneShot {
  import opened Common
  import opened OAuthTypes
  import opened KeyedStore
  import opened Stores
  import opened Grants
  import opened Handlers
  import opened History
  import opened Base64
  import S = Sequential

  // ---- Random values ----

  function Random(call: S.Call): Option<string> {
    if call.Authorize? || call.Complete? || call.Exchange? || call.Refresh? then call.random else None
  }

  predicate NoRepeats(calls: seq<S.Call>) {
    forall i, j :: 0 <= i < j < |calls| && Random(calls[i]).Some? ==> Random(calls[i]) != Random(calls[j])
  }

  function Seen(seen: set<string>, call: S.Call): set<string> {
    if Random(call).Some? then seen + {Random(call).value} else seen
  }

  /** None of the calls draws a value that was seen. */
  predicate Unseen(calls: seq<S.Call>, seen: set<string>) {
    forall i :: 0 <= i < |calls| && Random(calls[i]).Some? ==> Random(calls[i]).value !in seen
  }

  function SeenBy(seen: set<string>, calls: seq<S.Call>): set<string>
    decreases |calls|
  {
    if calls == [] then seen else SeenBy(Seen(seen, calls[0]), calls[1..])
  }

  lemma RestIsUnseen(calls: seq<S.Call>, seen: set<string>)
    requires calls != [] && NoRepeats(calls) && Unseen(calls, seen)
    ensures NoRepeats(calls[1..]) && Unseen(calls[1..], Seen(seen, calls[0]))
  {
    assert forall i :: 0 <= i < |calls[1..]| ==> calls[1..][i] == calls[i + 1];
  }

  // ---- Tickets: what an outcome uses up, and what the stores still hold ----

  datatype Ticket = OfSession(id: string) | OfCode(id: string) | OfToken(id: string)

  function Spends(e: Outcome): Option<Ticket> {
    match e
    case Issued(_, s, _) => Some(OfSession(s.sessionId))
    case Granted(_, _, FromCode(c, _), _) => Some(OfCode(c.code))
    case Granted(_, _, FromRefresh(p), _) => Some(OfToken(p.token))
    case _ => None
  }

  predicate Saved<V>(r: Remote<V>, k: string) { r.Table? && k in r.rows }
  predicate Within<V>(s: Store<V>, k: string) { k in s.local || Saved(s.remote, k) }
  predicate SavedUnused(r: Remote<AuthCode>, k: string) { Saved(r, k) && !r.rows[k].used }
  predicate Unused(s: Store<AuthCode>, k: string) { (k in s.local && !s.local[k].used) || SavedUnused(s.remote, k) }

  /** The ticket can be found locally or at the backend. */
  predicate Holds(s: AuthStores, t: Ticket) {
    match t
    case OfSession(id) => Within(s.sessions, id)
    case OfCode(id) => Unused(s.codes, id)
    case OfToken(id) => Within(s.tokens, id)
  }

  /** No session, code or refresh token is spent by two outcomes. */
  ghost predicate SpentOnce(h: seq<Outcome>) {
    forall i, j :: 0 <= i < j < |h| && Spends(h[i]).Some? ==> Spends(h[i]) != Spends(h[j])
  }

  /** What was spent is gone for good. */
  ghost predicate SpentIsGone(s: AuthStores, h: seq<Outcome>, seen: set<string>) {
    forall i :: 0 <= i < |h| && Spends(h[i]).Some? ==>
      Spends(h[i]).value.id in seen && !Holds(s, Spends(h[i]).value)
  }

  /** The backend has the record that the call would spend, and the backend call that should erase
      it there, or mark it as used, fails. */
  predicate Remains(s: AuthStores, call: S.Call) {
    match call
    case Complete(id, _, _, net, _) => !net.second && Saved(s.sessions.remote, id)
    case Exchange(req, _, net, _) => !net.first && SavedUnused(s.codes.remote, req.code)
    case Refresh(req, _, net, _) => !net.first && Saved(s.tokens.remote, req.refreshToken)
    case _ => false
  }

  /** The call spends a record that remains at the backend. */
  predicate Lost(sha: string -> seq<byte>, s: AuthStores, call: S.Call) {
    Remains(s, call) && Spends(S.Handle(sha, s, call).1).Some?
  }

  predicate NothingLost(sha: string -> seq<byte>, s: S.State, calls: seq<S.Call>)
    decreases |calls|
  {
    calls == [] || (!Lost(sha, s.stores, calls[0]) && NothingLost(sha, S.Do(sha, s, calls[0]), calls[1..]))
  }

  // ---- Every record is kept under its own, seen, key, and both copies of it agree ----

  function ThisSession(s: Session): Session { s }
  function ThisToken(t: RefreshToken): RefreshToken { t }
  function UsedOrNot(c: AuthCode): AuthCode { c.(used := true) }

  ghost predicate Kept<V>(s: Store<V>, key: V -> string, form: V -> V, seen: set<string>) {
    && (forall k :: k in s.local ==> k in seen && key(s.local[k]) == k)
    && (s.remote.Table? ==> forall k :: k in s.remote.rows ==> k in seen && key(s.remote.rows[k]) == k)
    && (s.remote.Table? ==> forall k :: k in s.local && k in s.remote.rows ==>
                              form(s.local[k]) == form(s.remote.rows[k]))
  }

  ghost predicate AllKept(s: AuthStores, seen: set<string>) {
    && Kept(s.sessions, SessionKey, ThisSession, seen)
    && Kept(s.codes, CodeKey, UsedOrNot, seen)
    && Kept(s.tokens, TokenKey, ThisToken, seen)
  }

  lemma KeptLater<V>(s: Store<V>, key: V -> string, form: V -> V, seen: set<string>, later: set<string>)
    requires Kept(s, key, form, seen) && seen <= later
    ensures Kept(s, key, form, later)
  {
  }

  lemma PutKept<V>(s: Store<V>, key: V -> string, form: V -> V, seen: set<string>, v: V, up: bool)
    requires Kept(s, key, form, seen) && key(v) !in seen
    ensures Kept(Put(s, key(v), v, up), key, form, seen + {key(v)})
    ensures forall k :: Within(Put(s, key(v), v, up), k) ==> Within(s, k) || k == key(v)
  {
  }

  lemma DeleteKept<V>(s: Store<V>, key: V -> string, form: V -> V, seen: set<string>, id: string, up: bool)
    requires Kept(s, key, form, seen)
    ensures Kept(Delete(s, id, up), key, form, seen)
    ensures forall k :: Within(Delete(s, id, up), k) ==> Within(s, k)
    ensures Within(Delete(s, id, up), id) <==> !up && Saved(s.remote, id)
  {
  }

  lemma ReadKept<V>(s: Store<V>, key: V -> string, form: V -> V, seen: set<string>, id: string, up: bool)
    requires Kept(s, key, form, seen)
    ensures Kept(Read(s, id, up, key), key, form, seen)
    ensures forall k :: Within(Read(s, id, up, key), k) <==> Within(s, k)
    ensures
      var found := Reached(s.local, id, Ask(s.remote, id, up));
      found.Some? ==>
        && id in seen && Within(s, id) && key(found.value) == id
        && (Saved(s.remote, id) ==> form(found.value) == form(s.remote.rows[id]))
  {
  }

  lemma LiveKept<V>(s: Store<V>, key: V -> string, form: V -> V, seen: set<string>, deadline: V -> Time, now: Time)
    requires Kept(s, key, form, seen)
    ensures Kept(s.(local := Live(s.local, deadline, now)), key, form, seen)
    ensures forall k :: Within(s.(local := Live(s.local, deadline, now)), k) ==> Within(s, k)
  {
  }

  lemma HeldKept(s: Store<AuthCode>, seen: set<string>, code: string, read: bool)
    requires Kept(s, CodeKey, UsedOrNot, seen)
    ensures Kept(Held(s, code, read), CodeKey, UsedOrNot, seen)
    ensures forall k :: Unused(Held(s, code, read), k) <==> Unused(s, k)
  {
  }

  /** A taken code is marked; only a mark that fails leaves it unused, at the backend. */
  lemma TakenKept(s: Store<AuthCode>, seen: set<string>, code: string, mark: bool)
    requires Kept(s, CodeKey, UsedOrNot, seen)
    ensures Kept(Taken(s, code, mark), CodeKey, UsedOrNot, seen)
    ensures forall k :: Unused(Taken(s, code, mark), k) ==> Unused(s, k)
    ensures Unused(Taken(s, code, mark), code) <==> !mark && SavedUnused(s.remote, code)
  {
  }

  // ---- Each call is fair ----

  /** What a call may do: spend a held ticket, which stays held only if it is lost, and bring in
      tickets with values that were not seen. */
  ghost predicate Fair(s: AuthStores, t: AuthStores, e: Outcome, lost: bool, seen: set<string>, later: set<string>) {
    && seen <= later && AllKept(t, later)
    && (Spends(e).Some? ==>
          && Spends(e).value.id in seen && Holds(s, Spends(e).value)
          && (Holds(t, Spends(e).value) <==> lost))
    && (forall x :: Holds(t, x) ==> Holds(s, x) || x.id !in seen)
  }

  /** The stores with the sessions, the codes and the tokens replaced. */
  lemma FairParts(s: AuthStores, t: AuthStores, e: Outcome, lost: bool, seen: set<string>, later: set<string>)
    requires seen <= later && AllKept(t, later)
    requires forall k :: Within(t.sessions, k) ==> Within(s.sessions, k) || k !in seen
    requires forall k :: Unused(t.codes, k) ==> Unused(s.codes, k) || k !in seen
    requires forall k :: Within(t.tokens, k) ==> Within(s.tokens, k) || k !in seen
    requires Spends(e).Some? ==>
               Spends(e).value.id in seen && Holds(s, Spends(e).value) && (Holds(t, Spends(e).value) <==> lost)
    ensures Fair(s, t, e, lost, seen, later)
  {
  }

  lemma AllKeptLater(s: AuthStores, seen: set<string>, later: set<string>)
    requires AllKept(s, seen) && seen <= later
    ensures AllKept(s, later)
  {
    KeptLater(s.sessions, SessionKey, ThisSession, seen, later);
    KeptLater(s.codes, CodeKey, UsedOrNot, seen, later);
    KeptLater(s.tokens, TokenKey, ThisToken, seen, later);
  }

  // -- authorize --

  predicate Authorized(s: AuthStores, t: AuthStores, e: Outcome, call: S.Call)
    requires call.Authorize?
  {
    if e.Opened? then
      call.random == Some(e.session.sessionId)
      && t == s.(clients := t.clients, sessions := Put(s.sessions, e.session.sessionId, e.session, call.net.second))
    else Spends(e).None? && t == s.(clients := t.clients)
  }

  lemma AuthorizeShape(sha: string -> seq<byte>, s: AuthStores, call: S.Call)
    requires call.Authorize?
    ensures var (t, e) := S.Handle(sha, s, call); Authorized(s, t, e, call)
  {
  }

  lemma AuthorizeIsFair(s: AuthStores, t: AuthStores, e: Outcome, call: S.Call, seen: set<string>)
    requires AllKept(s, seen) && call.Authorize? && Unseen([call], seen) && Authorized(s, t, e, call)
    ensures Fair(s, t, e, Remains(s, call), seen, Seen(seen, call))
  {
    assert [call][0] == call;
    AllKeptLater(s, seen, Seen(seen, call));
    if e.Opened? {
      PutKept(s.sessions, SessionKey, ThisSession, seen, e.session, call.net.second);
    }
    FairParts(s, t, e, Remains(s, call), seen, Seen(seen, call));
  }

  // -- completion --

  predicate Completed(s: AuthStores, t: AuthStores, e: Outcome, call: S.Call)
    requires call.Complete?
  {
    var sessions := Read(s.sessions, call.sessionId, call.net.read, SessionKey);
    if e.Issued? then
      && call.random == Some(e.code.code)
      && Reached(s.sessions.local, call.sessionId, Ask(s.sessions.remote, call.sessionId, call.net.read))
         == Some(e.session)
      && t == s.(sessions := Delete(sessions, call.sessionId, call.net.second),
                 codes := Put(s.codes, e.code.code, e.code, call.net.first))
    else Spends(e).None? && t == s.(sessions := sessions)
  }

  lemma CompleteShape(sha: string -> seq<byte>, s: AuthStores, call: S.Call)
    requires call.Complete?
    ensures var (t, e) := S.Handle(sha, s, call); Completed(s, t, e, call)
  {
  }

  lemma CompleteIsFair(s: AuthStores, t: AuthStores, e: Outcome, call: S.Call, seen: set<string>)
    requires AllKept(s, seen) && call.Complete? && Unseen([call], seen) && Completed(s, t, e, call)
    ensures Fair(s, t, e, Remains(s, call), seen, Seen(seen, call))
  {
    var id, later := call.sessionId, Seen(seen, call);
    var sessions := Read(s.sessions, id, call.net.read, SessionKey);
    assert [call][0] == call;
    ReadKept(s.sessions, SessionKey, ThisSession, seen, id, call.net.read);
    AllKeptLater(s.(sessions := sessions), seen, later);
    if e.Issued? {
      PutKept(s.codes, CodeKey, UsedOrNot, seen, e.code, call.net.first);
      PutUnused(s.codes, e.code, call.net.first);
      DeleteKept(sessions, SessionKey, ThisSession, later, id, call.net.second);
    }
    FairParts(s, t, e, Remains(s, call), seen, later);
  }

  lemma PutUnused(s: Store<AuthCode>, c: AuthCode, up: bool)
    ensures forall k :: Unused(Put(s, c.code, c, up), k) ==> Unused(s, k) || k == c.code
  {
  }

  // -- code exchange --

  predicate Exchanged(s: AuthStores, t: AuthStores, e: Outcome, call: S.Call)
    requires call.Exchange?
  {
    var held := Held(s.codes, call.exchange.code, call.net.read);
    var taken := Taken(held, call.exchange.code, call.net.first);
    if e.Granted? then
      && call.random == Some(e.token.token) && e.source.FromCode?
      && Claim(held.local, call.exchange.code, call.now) == Some(e.source.code)
      && t == s.(codes := taken, tokens := Put(s.tokens, e.token.token, e.token, call.net.second))
    else Spends(e).None? && t == s.(codes := t.codes) && (t.codes == s.codes || t.codes == held || t.codes == taken)
  }

  lemma ExchangeShape(sha: string -> seq<byte>, s: AuthStores, call: S.Call)
    requires call.Exchange?
    ensures var (t, e) := S.Handle(sha, s, call); Exchanged(s, t, e, call)
  {
    ConsumeShape(s.codes, call.exchange.code, call.net.read, call.net.first, call.now);
  }

  lemma ExchangeGrantIsFair(s: AuthStores, t: AuthStores, e: Outcome, call: S.Call, seen: set<string>)
    requires AllKept(s, seen) && call.Exchange? && Unseen([call], seen) && Exchanged(s, t, e, call) && e.Granted?
    ensures Fair(s, t, e, Remains(s, call), seen, Seen(seen, call))
  {
    var code, later := call.exchange.code, Seen(seen, call);
    assert [call][0] == call;
    HeldKept(s.codes, seen, code, call.net.read);
    TakenKept(Held(s.codes, code, call.net.read), seen, code, call.net.first);
    KeptLater(s.sessions, SessionKey, ThisSession, seen, later);
    KeptLater(t.codes, CodeKey, UsedOrNot, seen, later);
    PutKept(s.tokens, TokenKey, ThisToken, seen, e.token, call.net.second);
    FairParts(s, t, e, Remains(s, call), seen, later);
  }

  lemma ExchangeIsFair(s: AuthStores, t: AuthStores, e: Outcome, call: S.Call, seen: set<string>)
    requires AllKept(s, seen) && call.Exchange? && Unseen([call], seen) && Exchanged(s, t, e, call)
    ensures Fair(s, t, e, Remains(s, call), seen, Seen(seen, call))
  {
    var code, later := call.exchange.code, Seen(seen, call);
    if e.Granted? {
      ExchangeGrantIsFair(s, t, e, call, seen);
    } else {
      HeldKept(s.codes, seen, code, call.net.read);
      TakenKept(Held(s.codes, code, call.net.read), seen, code, call.net.first);
      AllKeptLater(s.(codes := t.codes), seen, later);
      FairParts(s, t, e, Remains(s, call), seen, later);
    }
  }

  // -- refresh --

  predicate Refreshed(s: AuthStores, t: AuthStores, e: Outcome, call: S.Call)
    requires call.Refresh?
  {
    var id := call.refresh.refreshToken;
    var tokens := Read(s.tokens, id, call.net.read, TokenKey);
    var rest := Delete(tokens, id, call.net.first);
    if e.Granted? then
      && call.random == Some(e.token.token) && e.source.FromRefresh?
      && Reached(s.tokens.local, id, Ask(s.tokens.remote, id, call.net.read)) == Some(e.source.previous)
      && t == s.(tokens := Put(rest, e.token.token, e.token, call.net.second))
    else
      && Spends(e).None? && t == s.(tokens := t.tokens)
      && (t.tokens == s.tokens || t.tokens == tokens || t.tokens == rest)
  }

  lemma RefreshShape(sha: string -> seq<byte>, s: AuthStores, call: S.Call)
    requires call.Refresh?
    ensures var (t, e) := S.Handle(sha, s, call); Refreshed(s, t, e, call)
  {
  }

  lemma RefreshGrantIsFair(s: AuthStores, t: AuthStores, e: Outcome, call: S.Call, seen: set<string>)
    requires AllKept(s, seen) && call.Refresh? && Unseen([call], seen) && Refreshed(s, t, e, call) && e.Granted?
    ensures Fair(s, t, e, Remains(s, call), seen, Seen(seen, call))
  {
    var id, later := call.refresh.refreshToken, Seen(seen, call);
    var tokens := Read(s.tokens, id, call.net.read, TokenKey);
    assert [call][0] == call;
    ReadKept(s.tokens, TokenKey, ThisToken, seen, id, call.net.read);
    DeleteKept(tokens, TokenKey, ThisToken, seen, id, call.net.first);
    KeptLater(s.sessions, SessionKey, ThisSession, seen, later);
    KeptLater(s.codes, CodeKey, UsedOrNot, seen, later);
    PutKept(Delete(tokens, id, call.net.first), TokenKey, ThisToken, seen, e.token, call.net.second);
    FairParts(s, t, e, Remains(s, call), seen, later);
  }

  lemma RefreshIsFair(s: AuthStores, t: AuthStores, e: Outcome, call: S.Call, seen: set<string>)
    requires AllKept(s, seen) && call.Refresh? && Unseen([call], seen) && Refreshed(s, t, e, call)
    ensures Fair(s, t, e, Remains(s, call), seen, Seen(seen, call))
  {
    var id, later := call.refresh.refreshToken, Seen(seen, call);
    if e.Granted? {
      RefreshGrantIsFair(s, t, e, call, seen);
    } else {
      var tokens := Read(s.tokens, id, call.net.read, TokenKey);
      ReadKept(s.tokens, TokenKey, ThisToken, seen, id, call.net.read);
      DeleteKept(tokens, TokenKey, ThisToken, seen, id, call.net.first);
      AllKeptLater(s.(tokens := t.tokens), seen, later);
      FairParts(s, t, e, Remains(s, call), seen, later);
    }
  }

  // -- cleanup and restart --

  lemma CleanupIsFair(s: AuthStores, now: Time, seen: set<string>)
    requires AllKept(s, seen)
    ensures Fair(s, S.Swept(s, now), Refused(""), false, seen, seen)
  {
    LiveKept(s.sessions, SessionKey, ThisSession, seen, SessionDeadline, now);
    LiveKept(s.codes, CodeKey, UsedOrNot, seen, CodeDeadline, now);
    LiveKept(s.tokens, TokenKey, ThisToken, seen, TokenDeadline, now);
    FairParts(s, S.Swept(s, now), Refused(""), false, seen, seen);
  }

  lemma RestartIsFair(s: AuthStores, seen: set<string>)
    requires AllKept(s, seen)
    ensures Fair(s, S.Restarted(s), Refused(""), false, seen, seen)
  {
    FairParts(s, S.Restarted(s), Refused(""), false, seen, seen);
  }

  lemma RegisterIsFair(sha: string -> seq<byte>, s: AuthStores, call: S.Call, seen: set<string>)
    requires AllKept(s, seen) && call.Register?
    ensures var r := S.Handle(sha, s, call); Fair(s, r.0, r.1, false, seen, seen)
  {
    var (t, e) := S.Handle(sha, s, call);
    FairParts(s, t, e, false, seen, seen);
  }

  lemma GrantIsFair(sha: string -> seq<byte>, s: AuthStores, call: S.Call, seen: set<string>)
    requires AllKept(s, seen) && Unseen([call], seen) && (call.Exchange? || call.Refresh?)
    ensures var r := S.Handle(sha, s, call); Fair(s, r.0, r.1, Remains(s, call), seen, Seen(seen, call))
  {
    var (t, e) := S.Handle(sha, s, call);
    if call.Exchange? {
      ExchangeShape(sha, s, call);
      ExchangeIsFair(s, t, e, call, seen);
    } else {
      RefreshShape(sha, s, call);
      RefreshIsFair(s, t, e, call, seen);
    }
  }

  lemma LoginIsFair(sha: string -> seq<byte>, s: AuthStores, call: S.Call, seen: set<string>)
    requires AllKept(s, seen) && Unseen([call], seen) && (call.Authorize? || call.Complete?)
    ensures var r := S.Handle(sha, s, call); Fair(s, r.0, r.1, Remains(s, call), seen, Seen(seen, call))
  {
    var (t, e) := S.Handle(sha, s, call);
    if call.Authorize? {
      AuthorizeShape(sha, s, call);
      AuthorizeIsFair(s, t, e, call, seen);
    } else {
      CompleteShape(sha, s, call);
      CompleteIsFair(s, t, e, call, seen);
    }
  }

  /** A call spends only what is held, and what it spends stays held exactly when it remains at the backend. */
  lemma CallIsFair(sha: string -> seq<byte>, s: AuthStores, call: S.Call, seen: set<string>)
    requires AllKept(s, seen) && Unseen([call], seen)
    ensures var r := S.Handle(sha, s, call); Fair(s, r.0, r.1, Remains(s, call), seen, Seen(seen, call))
  {
    if call.Authorize? || call.Complete? {
      LoginIsFair(sha, s, call, seen);
    } else if call.Exchange? || call.Refresh? {
      GrantIsFair(sha, s, call, seen);
    } else if call.Register? {
      RegisterIsFair(sha, s, call, seen);
    } else if call.Cleanup? {
      CleanupIsFair(s, call.now, seen);
    } else {
      RestartIsFair(s, seen);
    }
  }

  // ---- Whole runs ----

  /** A fair outcome that is not lost keeps the ledger. */
  lemma FairStep(s: AuthStores, h: seq<Outcome>, t: AuthStores, e: Outcome, seen: set<string>, later: set<string>)
    requires SpentOnce(h) && SpentIsGone(s, h, seen)
    requires Fair(s, t, e, false, seen, later)
    ensures SpentOnce(Note(h, e)) && SpentIsGone(t, Note(h, e), later)
  {
    var g := Note(h, e);
    forall i | 0 <= i < |g| && Spends(g[i]).Some?
      ensures Spends(g[i]).value.id in later && !Holds(t, Spends(g[i]).value)
    {
      if i < |h| {
        assert g[i] == h[i];
      }
    }
    forall i, j | 0 <= i < j < |g| && Spends(g[i]).Some? ensures Spends(g[i]) != Spends(g[j]) {
      assert g[i] == h[i];
      assert j < |h| ==> g[j] == h[j];
    }
  }

  lemma NoteClientKeeps(s: AuthStores, h: seq<Outcome>, c: Option<Client>, seen: set<string>)
    requires SpentOnce(h) && SpentIsGone(s, h, seen)
    ensures SpentOnce(NoteClient(h, c)) && SpentIsGone(s, NoteClient(h, c), seen)
  {
  }

  ghost predicate Inv(s: S.State, seen: set<string>) {
    AllKept(s.stores, seen) && SpentOnce(s.history) && SpentIsGone(s.stores, s.history, seen)
  }

  lemma StepKeeps(sha: string -> seq<byte>, s: S.State, call: S.Call, seen: set<string>)
    requires Inv(s, seen) && Unseen([call], seen) && !Lost(sha, s.stores, call)
    ensures Inv(S.Do(sha, s, call), Seen(seen, call))
  {
    var (t, e) := S.Handle(sha, s.stores, call);
    var h :=
      if call.Authorize? then NoteClient(s.history, MadeUp(s.stores, call.authorize, call.net, call.now))
      else s.history;
    CallIsFair(sha, s.stores, call, seen);
    if call.Authorize? {
      NoteClientKeeps(s.stores, s.history, MadeUp(s.stores, call.authorize, call.net, call.now), seen);
    }
    FairStep(s.stores, h, t, e, seen, Seen(seen, call));
  }

  lemma {:induction false} RunKeeps(sha: string -> seq<byte>, s: S.State, calls: seq<S.Call>, seen: set<string>)
    requires Inv(s, seen) && NoRepeats(calls) && Unseen(calls, seen) && NothingLost(sha, s, calls)
    ensures Inv(S.Run(sha, s, calls), SeenBy(seen, calls))
    decreases |calls|
  {
    if calls != [] {
      RestIsUnseen(calls, seen);
      StepKeeps(sha, s, calls[0], seen);
      RunKeeps(sha, S.Do(sha, s, calls[0]), calls[1..], Seen(seen, calls[0]));
    }
  }

  lemma BlankIsKept(stores: AuthStores)
    requires S.Blank(stores)
    ensures Inv(S.State(stores, []), {})
  {
    assert S.Project(S.State(stores, [])).sessions == map[];
  }

  /** Over a whole run without repeated random values and with nothing lost, every session yields at
      most one code, every code at most one first token, and every refresh token string is redeemed
      at most once. */
  lemma EverythingIsSpentOnce(sha: string -> seq<byte>, stores: AuthStores, calls: seq<S.Call>)
    requires S.Blank(stores) && NoRepeats(calls) && NothingLost(sha, S.State(stores, []), calls)
    ensures SpentOnce(S.Run(sha, S.State(stores, []), calls).history)
  {
    BlankIsKept(stores);
    RunKeeps(sha, S.State(stores, []), calls, {});
  }

  predicate NoBackend(s: AuthStores) {
    s.sessions.remote.Detached? && s.codes.remote.Detached? && s.tokens.remote.Detached?
  }

  /** Without a backend there is nothing to lose. */
  lemma {:induction false} NoBackendLosesNothing(sha: string -> seq<byte>, s: S.State, calls: seq<S.Call>)
    requires NoBackend(s.stores)
    ensures NothingLost(sha, s, calls)
    decreases |calls|
  {
    if calls != [] {
      StaysWithout(sha, s.stores, calls[0]);
      NoBackendLosesNothing(sha, S.Do(sha, s, calls[0]), calls[1..]);
    }
  }

  lemma StaysWithout(sha: string -> seq<byte>, s: AuthStores, call: S.Call)
    requires NoBackend(s)
    ensures NoBackend(S.Handle(sha, s, call).0)
  {
    match call
    case Authorize(_, _, _, _) => AuthorizeShape(sha, s, call);
    case Complete(_, _, _, _, _) => CompleteShape(sha, s, call);
    case Exchange(_, _, _, _) => ExchangeShape(sha, s, call);
    case Refresh(_, _, _, _) => RefreshShape(sha, s, call);
    case _ =>
  }

  // ---- What is lost can be spent again ----

  const Up := Net(true, true, true)

  /** The record that was redeemed is the one the backend goes on having. */
  lemma RefreshLeaves(s: AuthStores, t: AuthStores, e: Outcome, call: S.Call, seen: set<string>)
    requires AllKept(s, seen) && call.Refresh? && Unseen([call], seen)
    requires Refreshed(s, t, e, call) && e.Granted? && Remains(s, call)
    ensures
      var id := call.refresh.refreshToken;
      id !in t.tokens.local && Ask(t.tokens.remote, id, true) == Found(e.source.previous)
  {
    assert [call][0] == call;
    ReadKept(s.tokens, TokenKey, ThisToken, seen, call.refresh.refreshToken, call.net.read);
  }

  lemma RefreshAgain(sha: string -> seq<byte>, s: AuthStores, call: S.Call, seen: set<string>, r: string)
    returns (again: S.Call)
    requires AllKept(s, seen) && Unseen([call], seen) && Lost(sha, s, call) && call.Refresh?
    ensures Random(again) == Some(r) && !again.Authorize?
    ensures
      var (t, e) := S.Handle(sha, s, call);
      Spends(S.Handle(sha, t, again).1) == Spends(e)
  {
    again := S.Refresh(call.refresh, Some(r), Up, call.now);
    var (t, e) := S.Handle(sha, s, call);
    RefreshShape(sha, s, call);
    RefreshLeaves(s, t, e, call, seen);
  }

  lemma CompleteAgain(sha: string -> seq<byte>, s: AuthStores, call: S.Call, seen: set<string>, r: string)
    returns (again: S.Call)
    requires AllKept(s, seen) && Unseen([call], seen) && Lost(sha, s, call) && call.Complete?
    ensures Random(again) == Some(r) && !again.Authorize?
    ensures
      var (t, e) := S.Handle(sha, s, call);
      Spends(S.Handle(sha, t, again).1) == Spends(e)
  {
    again := S.Complete(call.sessionId, call.userId, Some(r), Up, call.now);
    var (t, e) := S.Handle(sha, s, call);
    var id := call.sessionId;
    CompleteShape(sha, s, call);
    ReadKept(s.sessions, SessionKey, ThisSession, seen, id, call.net.read);
    assert id !in t.sessions.local && Ask(t.sessions.remote, id, true) == Found(e.session);
  }

  /** After a restart the backend's unused record of the code that was exchanged is taken again. */
  lemma ExchangeLeaves(s: AuthStores, t: AuthStores, e: Outcome, call: S.Call, seen: set<string>)
    requires AllKept(s, seen) && call.Exchange?
    requires Exchanged(s, t, e, call) && e.Granted? && Remains(s, call)
    ensures Consume(S.Restarted(t).codes, call.exchange.code, true, true, call.now).1 == Some(e.source.code)
  {
    var code := call.exchange.code;
    HeldKept(s.codes, seen, code, call.net.read);
    var held, row := Held(s.codes, code, call.net.read), s.codes.remote.rows[code];
    assert t.codes.remote == s.codes.remote;
    assert UsedOrNot(held.local[code]) == UsedOrNot(row);
    ConsumeShape(S.Restarted(t).codes, code, true, true, call.now);
  }

  /** A code whose mark was lost can be exchanged again once the server has been restarted. */
  lemma ExchangeAgain(sha: string -> seq<byte>, s: AuthStores, call: S.Call, seen: set<string>, r: string)
    returns (again: S.Call)
    requires AllKept(s, seen) && Unseen([call], seen) && Lost(sha, s, call) && call.Exchange?
    ensures Random(again) == Some(r) && !again.Authorize?
    ensures
      var (t, e) := S.Handle(sha, s, call);
      Spends(S.Handle(sha, S.Restarted(t), again).1) == Spends(e)
  {
    again := S.Exchange(call.exchange, Some(r), Up, call.now);
    var (t, e) := S.Handle(sha, s, call);
    ExchangeShape(sha, s, call);
    ExchangeLeaves(s, t, e, call, seen);
  }

  lemma {:induction false} RunAppend(sha: string -> seq<byte>, s: S.State, a: seq<S.Call>, b: seq<S.Call>)
    ensures S.Run(sha, s, a + b) == S.Run(sha, S.Run(sha, s, a), b)
    decreases |a|
  {
    if a == [] {
      assert a + b == b;
    } else {
      assert (a + b)[1..] == a[1..] + b;
      RunAppend(sha, S.Do(sha, s, a[0]), a[1..], b);
    }
  }

  lemma {:induction false} RunIsKept(sha: string -> seq<byte>, s: S.State, calls: seq<S.Call>, seen: set<string>)
    requires AllKept(s.stores, seen) && NoRepeats(calls) && Unseen(calls, seen)
    ensures AllKept(S.Run(sha, s, calls).stores, SeenBy(seen, calls))
    decreases |calls|
  {
    if calls != [] {
      RestIsUnseen(calls, seen);
      CallIsFair(sha, s.stores, calls[0], seen);
      RunIsKept(sha, S.Do(sha, s, calls[0]), calls[1..], Seen(seen, calls[0]));
    }
  }

  lemma {:induction false} LastIsUnseen(calls: seq<S.Call>, call: S.Call, seen: set<string>)
    requires NoRepeats(calls + [call]) && Unseen(calls + [call], seen)
    ensures NoRepeats(calls) && Unseen(calls, seen) && Unseen([call], SeenBy(seen, calls))
    decreases |calls|
  {
    var all := calls + [call];
    assert forall i :: 0 <= i < |calls| ==> all[i] == calls[i];
    assert all[|calls|] == call;
    if calls != [] {
      RestIsUnseen(all, seen);
      assert all[1..] == calls[1..] + [call];
      LastIsUnseen(calls[1..], call, Seen(seen, calls[0]));
    }
  }

  /** Two outcomes that spend the same ticket. */
  lemma Twice(h: seq<Outcome>, d: Outcome, e: Outcome)
    requires Spends(d).Some? && Spends(d) == Spends(e)
    ensures !SpentOnce(h + [d] + [e])
  {
    var g := h + [d] + [e];
    assert g[|h|] == d && g[|h| + 1] == e;
  }

  lemma LostStep(sha: string -> seq<byte>, s: S.State, call: S.Call, seen: set<string>, r: string)
    returns (more: seq<S.Call>, again: S.Call)
    requires AllKept(s.stores, seen) && Unseen([call], seen) && Lost(sha, s.stores, call)
    ensures (more == [again] || more == [S.Restart, again]) && Random(again) == Some(r)
    ensures !SpentOnce(S.Run(sha, S.Do(sha, s, call), more).history)
  {
    var (t, e) := S.Handle(sha, s.stores, call);
    var after, restarted := S.State(t, s.history + [e]), S.State(S.Restarted(t), s.history + [e]);
    assert S.Do(sha, s, call) == after;
    if call.Exchange? {
      again := ExchangeAgain(sha, s.stores, call, seen, r);
      more := [S.Restart, again];
      Afterwards(sha, restarted, again);
      RestartShape(sha, after);
      RunFirst(sha, after, S.Restart, [again]);
      assert more == [S.Restart] + [again];
      Twice(s.history, e, S.Handle(sha, S.Restarted(t), again).1);
    } else {
      if call.Refresh? {
        again := RefreshAgain(sha, s.stores, call, seen, r);
      } else {
        again := CompleteAgain(sha, s.stores, call, seen, r);
      }
      more := [again];
      Afterwards(sha, after, again);
      Twice(s.history, e, S.Handle(sha, t, again).1);
    }
  }

  lemma Afterwards(sha: string -> seq<byte>, s: S.State, call: S.Call)
    requires !call.Authorize?
    ensures S.Run(sha, s, [call]).history == Note(s.history, S.Handle(sha, s.stores, call).1)
  {
    assert [call][1..] == [];
  }

  lemma RestartShape(sha: string -> seq<byte>, s: S.State)
    ensures S.Do(sha, s, S.Restart) == S.State(S.Restarted(s.stores), s.history)
  {
  }

  lemma RunFirst(sha: string -> seq<byte>, s: S.State, first: S.Call, rest: seq<S.Call>)
    ensures S.Run(sha, s, [first] + rest) == S.Run(sha, S.Do(sha, s, first), rest)
  {
    assert ([first] + rest)[1..] == rest;
  }

  /** The condition is exact: whenever a call of a run loses what it spends, the run can go on, with
      one fresh random value, so that the same ticket is spent a second time. */
  lemma LostIsSpentAgain(sha: string -> seq<byte>, stores: AuthStores, calls: seq<S.Call>, call: S.Call, r: string)
    returns (more: seq<S.Call>)
    requires S.Blank(stores) && NoRepeats(calls + [call])
    requires Lost(sha, S.Run(sha, S.State(stores, []), calls).stores, call)
    requires forall i :: 0 <= i < |calls + [call]| ==> Random((calls + [call])[i]) != Some(r)
    ensures NoRepeats(calls + [call] + more)
    ensures !SpentOnce(S.Run(sha, S.State(stores, []), calls + [call] + more).history)
  {
    var start, all := S.State(stores, []), calls + [call];
    var s := S.Run(sha, start, calls);
    BlankIsKept(stores);
    LastIsUnseen(calls, call, {});
    RunIsKept(sha, start, calls, {});
    var again;
    more, again := LostStep(sha, s, call, SeenBy({}, calls), r);
    RunAppend(sha, start, all, more);
    RunAppend(sha, start, calls, [call]);
    assert [call][1..] == [];
    assert S.Run(sha, s, [call]) == S.Do(sha, s, call);
    MoreIsFresh(all, more, again, r);
  }

  lemma MoreIsFresh(all: seq<S.Call>, more: seq<S.Call>, again: S.Call, r: string)
    requires NoRepeats(all) && forall i :: 0 <= i < |all| ==> Random(all[i]) != Some(r)
    requires (more == [again] || more == [S.Restart, again]) && Random(again) == Some(r)
    ensures NoRepeats(all + more)
  {
    assert forall i :: 0 <= i < |all| ==> (all + more)[i] == all[i];
    assert forall i :: 0 <= i < |more| ==> (all + more)[|all| + i] == more[i];
  }

  // ---- One live token per code ----

  lemma SpentBySame(h: seq<Outcome>, i: nat, j: nat)
    requires SpentOnce(h) && i < |h| && j < |h| && Spends(h[i]).Some? && Spends(h[i]) == Spends(h[j])
    ensures i == j
  {
  }

  /** One token is redeemed by one grant. */
  lemma SameHead(h: seq<Outcome>, a: seq<nat>, b: seq<nat>)
    requires SpentOnce(h) && IsLineage(h, a) && IsLineage(h, b) && |a| > 1 && |b| > 1 && a[1..] == b[1..]
    ensures a[0] == b[0]
  {
    var i, j := NextInLine(h, a), NextInLine(h, b);
    assert i == a[1..][0] && j == b[1..][0];
    SpentBySame(h, a[0], b[0]);
  }

  lemma SameFirst(h: seq<Outcome>, i: nat, j: nat)
    requires SpentOnce(h) && i < |h| && j < |h| && h[i].Granted? && h[j].Granted?
    requires h[i].source.FromCode? && h[j].source.FromCode? && h[i].source.code.code == h[j].source.code.code
    ensures i == j
  {
    SpentBySame(h, i, j);
  }

  /** Two lineages of one length from the same code are the same. */
  lemma {:induction false} SameLength(h: seq<Outcome>, a: seq<nat>, b: seq<nat>)
    requires SpentOnce(h) && IsLineage(h, a) && IsLineage(h, b) && |a| == |b|
    requires RootCode(h, a).code == RootCode(h, b).code
    ensures a == b
    decreases |a|
  {
    if |a| == 1 {
      SameFirst(h, a[0], b[0]);
    } else {
      Shorter(h, a);
      Shorter(h, b);
      SameLength(h, a[1..], b[1..]);
      SameHead(h, a, b);
      assert a == [a[0]] + a[1..] && b == [b[0]] + b[1..];
    }
  }

  /** So of two lineages from the same code one is the tail of the other. */
  lemma {:induction false} SameRoot(h: seq<Outcome>, a: seq<nat>, b: seq<nat>)
    requires SpentOnce(h) && IsLineage(h, a) && IsLineage(h, b) && |a| <= |b|
    requires RootCode(h, a).code == RootCode(h, b).code
    ensures a == b[|b| - |a|..]
    decreases |b|
  {
    if |a| == |b| {
      SameLength(h, a, b);
    } else {
      Shorter(h, b);
      SameRoot(h, a, b[1..]);
      assert b[1..][|b| - 1 - |a|..] == b[|b| - |a|..];
    }
  }

  /** At any moment a code has at most one refresh token descended from it that a store or the
      backend still holds. */
  lemma OneLiveTokenPerCode(sha: string -> seq<byte>, stores: AuthStores, calls: seq<S.Call>, a: seq<nat>, b: seq<nat>)
    requires S.Blank(stores) && NoRepeats(calls) && NothingLost(sha, S.State(stores, []), calls)
    requires
      var s := S.Run(sha, S.State(stores, []), calls);
      && IsLineage(s.history, a) && IsLineage(s.history, b)
      && RootCode(s.history, a).code == RootCode(s.history, b).code
      && Holds(s.stores, OfToken(s.history[a[0]].token.token))
      && Holds(s.stores, OfToken(s.history[b[0]].token.token))
    ensures a == b
  {
    var s := S.Run(sha, S.State(stores, []), calls);
    BlankIsKept(stores);
    RunKeeps(sha, S.State(stores, []), calls, {});
    if |a| < |b| {
      LongerSpends(s, SeenBy({}, calls), a, b);
    } else if |b| < |a| {
      LongerSpends(s, SeenBy({}, calls), b, a);
    } else {
      SameLength(s.history, a, b);
    }
  }

  /** Where a longer chain from the same code exists, the shorter one's token has been spent. */
  lemma LongerSpends(s: S.State, seen: set<string>, a: seq<nat>, b: seq<nat>)
    requires SpentOnce(s.history) && SpentIsGone(s.stores, s.history, seen)
    requires IsLineage(s.history, a) && IsLineage(s.history, b) && |a| < |b|
    requires RootCode(s.history, a).code == RootCode(s.history, b).code
    ensures !Holds(s.stores, OfToken(s.history[a[0]].token.token))
  {
    SameRoot(s.history, a, b);
    var n := |b| - |a| - 1;
    assert b[n + 1] == a[0];
    assert s.history[b[n]].source == FromRefresh(s.history[b[n + 1]].token);
    assert Spends(s.history[b[n]]) == Some(OfToken(s.history[a[0]].token.token));
  }
}
