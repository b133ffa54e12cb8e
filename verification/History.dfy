/** What the sequence of outcomes of an OAuth server says about where its tokens come from. */
module History {
  import opened Common
  import opened OAuthTypes
  import opened Grants
  import opened Base64
  import opened Pkce

  /** The same authorization code, whatever its used flag. */
  predicate SameCode(a: AuthCode, b: AuthCode) { a.(used := true) == b.(used := true) }

  ghost predicate WasRegistered(h: seq<Outcome>, c: Client) {
    exists j :: 0 <= j < |h| && h[j] == Registered(c)
  }

  ghost predicate WasOpened(h: seq<Outcome>, s: Session) {
    exists j :: 0 <= j < |h| && h[j].Opened? && h[j].session == s
  }

  ghost predicate WasIssued(h: seq<Outcome>, c: AuthCode) {
    exists j :: 0 <= j < |h| && h[j].Issued? && SameCode(h[j].code, c)
  }

  ghost predicate WasGranted(h: seq<Outcome>, t: RefreshToken) {
    exists j :: 0 <= j < |h| && h[j].Granted? && h[j].token == t
  }

  /** The token and the access token carry this subject and the lifetimes that start at `at`. */
  predicate Carries(e: Outcome, userId: string, clientId: string, scope: string)
    requires e.Granted?
  {
    && e.token.userId == e.access.sub == userId
    && e.token.clientId == e.access.clientId == clientId
    && e.token.scope == e.access.scope == scope
    && e.token.expiresAt == e.at + 7 * DAY
    && e.access.iat == Unix(e.at) && e.access.exp == Unix(e.at) + 3600
  }

  /** An outcome is justified by itself and by what came before it. */
  ghost predicate Justified(sha: string -> seq<byte>, h: seq<Outcome>, e: Outcome) {
    match e
    case Opened(s, client, req) =>
      && WasRegistered(h, client) && client.clientId == s.clientId == req.clientId
      && s.redirectUri == req.redirectUri && s.redirectUri in client.redirectUris
      && s.codeChallenge == req.codeChallenge && s.codeMethod == req.codeMethod == "S256"
      && s.scope == (if req.scope == "" then DEFAULT_SCOPE else req.scope)
    case Issued(c, s, userId) =>
      && WasOpened(h, s) && c.userId == userId && c.clientId == s.clientId
      && c.redirectUri == s.redirectUri && c.codeChallenge == s.codeChallenge && c.scope == s.scope
    case Granted(t, access, FromCode(c, req), at) =>
      && WasIssued(h, c) && c.used && Carries(e, c.userId, c.clientId, c.scope)
      && c.clientId == req.clientId && c.redirectUri == req.redirectUri
      && CodeChallenge(sha, req.codeVerifier) == c.codeChallenge
    case Granted(t, access, FromRefresh(p), at) =>
      WasGranted(h, p) && Carries(e, p.userId, p.clientId, p.scope)
    case _ => true
  }

  ghost predicate WellFormed(sha: string -> seq<byte>, h: seq<Outcome>) {
    forall i :: 0 <= i < |h| ==> Justified(sha, h[..i], h[i])
  }

  lemma CodeGrantJustified(sha: string -> seq<byte>, h: seq<Outcome>, c: AuthCode, req: CodeRequest, token: string,
                           now: Time)
    requires WasIssued(h, c) && c.used && Matches(sha, c, req)
    ensures Justified(sha, h, GrantForCode(c, req, token, now))
  {
  }

  lemma TokenGrantJustified(sha: string -> seq<byte>, h: seq<Outcome>, p: RefreshToken, req: RefreshRequest,
                            token: string, now: Time)
    requires WasGranted(h, p)
    ensures Justified(sha, h, GrantForToken(p, req, token, now))
  {
  }

  lemma Extend(sha: string -> seq<byte>, h: seq<Outcome>, e: Outcome)
    requires WellFormed(sha, h) && Justified(sha, h, e)
    ensures WellFormed(sha, h + [e])
  {
    var g := h + [e];
    forall i | 0 <= i < |g| ensures Justified(sha, g[..i], g[i]) {
      if i < |h| {
        assert g[..i] == h[..i];
      } else {
        assert g[..i] == h;
      }
    }
  }

  /** Nothing on record is ever forgotten. */
  lemma Remember(h: seq<Outcome>, e: Outcome)
    ensures forall c :: WasRegistered(h, c) ==> WasRegistered(h + [e], c)
    ensures forall s :: WasOpened(h, s) ==> WasOpened(h + [e], s)
    ensures forall c :: WasIssued(h, c) ==> WasIssued(h + [e], c)
    ensures forall t :: WasGranted(h, t) ==> WasGranted(h + [e], t)
    ensures e.Registered? ==> WasRegistered(h + [e], e.client)
    ensures e.Opened? ==> WasOpened(h + [e], e.session)
    ensures e.Issued? ==> WasIssued(h + [e], e.code)
    ensures e.Granted? ==> WasGranted(h + [e], e.token)
  {
    var g := h + [e];
    assert forall j :: 0 <= j < |h| ==> g[j] == h[j];
    assert g[|h|] == e;
  }

  /** Indices of the grants of a rotation chain, the youngest first, ending at a code exchange. */
  ghost predicate IsLineage(h: seq<Outcome>, chain: seq<nat>) {
    && chain != []
    && (forall n :: 0 <= n < |chain| ==> chain[n] < |h| && h[chain[n]].Granted?)
    && (forall n :: 0 <= n < |chain| - 1 ==>
          && chain[n + 1] < chain[n]
          && h[chain[n]].source == FromRefresh(h[chain[n + 1]].token))
    && h[chain[|chain| - 1]].source.FromCode?
  }

  lemma {:induction false} FindLineage(sha: string -> seq<byte>, h: seq<Outcome>, i: nat) returns (chain: seq<nat>)
    requires WellFormed(sha, h) && i < |h| && h[i].Granted?
    ensures IsLineage(h, chain) && chain[0] == i
    decreases i
  {
    assert Justified(sha, h[..i], h[i]);
    match h[i].source
    case FromCode(_, _) =>
      chain := [i];
    case FromRefresh(p) =>
      var j :| 0 <= j < |h[..i]| && h[..i][j].Granted? && h[..i][j].token == p;
      var rest := FindLineage(sha, h, j);
      Longer(h, i, rest);
      chain := [i] + rest;
  }

  lemma Longer(h: seq<Outcome>, i: nat, rest: seq<nat>)
    requires IsLineage(h, rest) && rest[0] < i < |h| && h[i].Granted? && h[i].source == FromRefresh(h[rest[0]].token)
    ensures IsLineage(h, [i] + rest)
  {
  }

  ghost function RootCode(h: seq<Outcome>, chain: seq<nat>): AuthCode
    requires IsLineage(h, chain)
  {
    h[chain[|chain| - 1]].source.code
  }

  /** Rotation carries the user, the client and the scope of the code along unchanged. */
  lemma {:induction false} LineageKeepsSubject(sha: string -> seq<byte>, h: seq<Outcome>, chain: seq<nat>)
    requires WellFormed(sha, h) && IsLineage(h, chain)
    ensures
      var t, a, c := h[chain[0]].token, h[chain[0]].access, RootCode(h, chain);
      && t.userId == a.sub == c.userId
      && t.clientId == a.clientId == c.clientId
      && t.scope == a.scope == c.scope
    decreases |chain|
  {
    assert Justified(sha, h[..chain[0]], h[chain[0]]);
    if |chain| > 1 {
      assert h[chain[0]].source == FromRefresh(h[chain[1]].token);
      Shorter(h, chain);
      LineageKeepsSubject(sha, h, chain[1..]);
    }
  }

  lemma Shorter(h: seq<Outcome>, chain: seq<nat>)
    requires IsLineage(h, chain) && |chain| > 1
    ensures IsLineage(h, chain[1..]) && RootCode(h, chain[1..]) == RootCode(h, chain)
  {
    var rest := chain[1..];
    forall n | 0 <= n < |rest| - 1
      ensures rest[n + 1] < rest[n] && h[rest[n]].source == FromRefresh(h[rest[n + 1]].token)
    {
      assert rest[n] == chain[n + 1] && rest[n + 1] == chain[n + 1 + 1];
    }
  }

  /** What a longer chain begins with: a grant and the one whose token it redeems. */
  ghost function NextInLine(h: seq<Outcome>, chain: seq<nat>): (i: nat)
    requires IsLineage(h, chain) && |chain| > 1
    ensures i == chain[1] < |h| && chain[0] < |h| && h[i].Granted? && h[chain[0]].Granted?
    ensures h[chain[0]].source == FromRefresh(h[i].token)
  {
    chain[0 + 1]
  }

  /** The whole story of grant `chain[0]`: the code it goes back to was issued at `ci` to the user
      who logged in, for the session opened at `si` by an authorize request, with a client record
      registered at `ri`. The exchange got that code out of the store as used. */
  ghost predicate TracesBack(sha: string -> seq<byte>, h: seq<Outcome>, chain: seq<nat>, ci: nat, si: nat, ri: nat) {
    && IsLineage(h, chain)
    && ri < si < ci < chain[|chain| - 1]
    && h[ci].Issued? && h[si].Opened? && h[ri] == Registered(h[si].client)
    && h[ci].session == h[si].session
    && var root := h[chain[|chain| - 1]].source;
    && var t, a := h[chain[0]].token, h[chain[0]].access;
    && var authorize, client := h[si].request, h[si].client;
    && SameCode(h[ci].code, root.code) && root.code.used
    && t.userId == a.sub == h[ci].userId
    && t.clientId == a.clientId == authorize.clientId == root.request.clientId == client.clientId
    && t.scope == a.scope == (if authorize.scope == "" then DEFAULT_SCOPE else authorize.scope)
    && authorize.redirectUri == root.request.redirectUri && authorize.redirectUri in client.redirectUris
    && authorize.codeMethod == "S256"
    && CodeChallenge(sha, root.request.codeVerifier) == authorize.codeChallenge
  }

  /** Every grant in a well-formed history goes back to one consumed code and one session. */
  lemma Trace(sha: string -> seq<byte>, h: seq<Outcome>, i: nat) returns (chain: seq<nat>, ci: nat, si: nat, ri: nat)
    requires WellFormed(sha, h) && i < |h| && h[i].Granted?
    ensures TracesBack(sha, h, chain, ci, si, ri) && chain[0] == i
  {
    chain := FindLineage(sha, h, i);
    LineageKeepsSubject(sha, h, chain);
    ci, si, ri := TraceCode(sha, h, chain[|chain| - 1]);
  }

  lemma TraceCode(sha: string -> seq<byte>, h: seq<Outcome>, r: nat) returns (ci: nat, si: nat, ri: nat)
    requires WellFormed(sha, h) && r < |h| && h[r].Granted? && h[r].source.FromCode?
    ensures ri < si < ci < r && h[ci].Issued? && h[si].Opened? && h[ci].session == h[si].session
    ensures h[ri] == Registered(h[si].client)
    ensures SameCode(h[ci].code, h[r].source.code)
    ensures Justified(sha, h[..r], h[r]) && Justified(sha, h[..ci], h[ci]) && Justified(sha, h[..si], h[si])
  {
    assert Justified(sha, h[..r], h[r]);
    var c := h[r].source.code;
    var j :| 0 <= j < |h[..r]| && h[..r][j].Issued? && SameCode(h[..r][j].code, c);
    ci := j;
    assert Justified(sha, h[..ci], h[ci]);
    var k :| 0 <= k < |h[..ci]| && h[..ci][k].Opened? && h[..ci][k].session == h[ci].session;
    si := k;
    assert Justified(sha, h[..si], h[si]);
    var m :| 0 <= m < |h[..si]| && h[..si][m] == Registered(h[si].client);
    ri := m;
  }

  // ---- How long a chain of tokens can last ----

  /** The deadline that bounds when an outcome may happen. */
  predicate Timely(e: Outcome) {
    match e
    case Issued(c, s, _) => c.expiresAt <= s.createdAt + SESSION_TTL + CODE_TTL
    case Granted(_, _, FromCode(c, _), at) => at <= c.expiresAt
    case Granted(_, _, FromRefresh(p), at) => at <= p.expiresAt
    case _ => true
  }

  ghost predicate AllTimely(h: seq<Outcome>) { forall i :: 0 <= i < |h| ==> Timely(h[i]) }

  lemma OneMore(k: int)
    ensures (k + 1) * REFRESH_TTL == k * REFRESH_TTL + REFRESH_TTL
  {
  }

  /** A grant comes before the deadline of what it spends, and sets the next one. */
  lemma GrantTimes(sha: string -> seq<byte>, h: seq<Outcome>, i: nat)
    requires WellFormed(sha, h) && AllTimely(h) && i < |h| && h[i].Granted?
    ensures h[i].token.expiresAt == h[i].at + REFRESH_TTL
    ensures h[i].at <= match h[i].source case FromCode(c, _) => c.expiresAt case FromRefresh(p) => p.expiresAt
  {
    assert Timely(h[i]);
    assert Justified(sha, h[..i], h[i]);
  }

  lemma StepTime(sha: string -> seq<byte>, h: seq<Outcome>, i: nat, j: nat)
    requires WellFormed(sha, h) && AllTimely(h) && i < |h| && j < |h|
    requires h[i].Granted? && h[j].Granted? && h[i].source == FromRefresh(h[j].token)
    ensures h[i].at <= h[j].at + REFRESH_TTL
  {
    GrantTimes(sha, h, i);
    GrantTimes(sha, h, j);
  }

  lemma {:induction false} GrantBound(sha: string -> seq<byte>, h: seq<Outcome>, chain: seq<nat>)
    requires WellFormed(sha, h) && IsLineage(h, chain) && AllTimely(h)
    ensures h[chain[0]].at <= RootCode(h, chain).expiresAt + (|chain| - 1) * REFRESH_TTL
    decreases |chain|
  {
    if |chain| == 1 {
      GrantTimes(sha, h, chain[0]);
    } else {
      StepTime(sha, h, chain[0], NextInLine(h, chain));
      Shorter(h, chain);
      GrantBound(sha, h, chain[1..]);
      OneMore(|chain| - 2);
    }
  }

  lemma TraceBound(sha: string -> seq<byte>, h: seq<Outcome>, chain: seq<nat>, ci: nat, si: nat, ri: nat)
    requires WellFormed(sha, h) && AllTimely(h) && TracesBack(sha, h, chain, ci, si, ri)
    ensures
      var e, k := h[chain[0]], |chain| - 1;
      && e.at <= h[si].session.createdAt + 10 * MINUTE + 5 * MINUTE + k * (7 * DAY)
      && e.token.expiresAt == e.at + 7 * DAY
      && e.access.iat == Unix(e.at) && e.access.exp == Unix(e.at) + 3600
  {
    GrantBound(sha, h, chain);
    GrantTimes(sha, h, chain[0]);
    assert Timely(h[ci]);
    assert Justified(sha, h[..chain[0]], h[chain[0]]);
  }
}
