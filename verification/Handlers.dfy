/** The records that each OAuth request creates, and what a request must satisfy. */
module Grants {
  import opened Common
  import opened OAuthTypes
  import opened Base64
  import opened Pkce

  const DEFAULT_SCOPE := "openid portfolio:read tools:invoke"

  datatype RegisterRequest = RegisterRequest(
    clientName: string,
    redirectUris: seq<string>,
    grantTypes: seq<string>,
    responseTypes: seq<string>,
    authMethod: string)

  /** `hasHost` is whether the redirect URI parses and names a host. */
  datatype AuthorizeRequest = AuthorizeRequest(
    clientId: string,
    redirectUri: string,
    hasHost: bool,
    responseType: string,
    codeChallenge: string,
    codeMethod: string,
    state: string,
    scope: string)

  datatype CodeRequest = CodeRequest(
    code: string, clientId: string, redirectUri: string, codeVerifier: string, issuer: string)

  datatype RefreshRequest = RefreshRequest(refreshToken: string, clientId: string, issuer: string)

  /** The claims of an access token; `iat` and `exp` are in seconds. */
  datatype Access = Access(sub: string, scope: string, clientId: string, iss: string, iat: int, exp: int)

  /** What a refresh token was given for. */
  datatype Source = FromCode(code: AuthCode, request: CodeRequest) | FromRefresh(previous: RefreshToken)

  /** The effect of one request, as its handler reports it. */
  datatype Outcome =
    | Refused(error: string)
    | Registered(client: Client)
    | Opened(session: Session, client: Client, request: AuthorizeRequest)
    | Issued(code: AuthCode, session: Session, userId: string)
    | Granted(token: RefreshToken, access: Access, source: Source, at: Time)

  function NewClient(req: RegisterRequest, id: string, secret: string, now: Time): Client {
    Client(id, secret, req.clientName, req.redirectUris,
           if req.grantTypes == [] then ["authorization_code", "refresh_token"] else req.grantTypes,
           if req.responseTypes == [] then ["code"] else req.responseTypes,
           if req.authMethod == "" then "none" else req.authMethod,
           Unix(now))
  }

  /** The client record made up for an unknown client id. */
  function AutoClient(req: AuthorizeRequest, now: Time): Client {
    Client(req.clientId, "", "auto-registered", [req.redirectUri],
           ["authorization_code", "refresh_token"], ["code"], "none", Unix(now))
  }

  /** The first complaint about an authorize request, if any. */
  function Complaint(req: AuthorizeRequest): Option<string> {
    if req.redirectUri == "" then Some("missing redirect_uri")
    else if !req.hasHost then Some("invalid redirect_uri")
    else if req.clientId == "" || req.responseType == "" || req.codeChallenge == "" || req.codeMethod == ""
            || req.state == ""
    then Some("missing required parameters")
    else if req.responseType != "code" then Some("unsupported_response_type")
    else if req.codeMethod != "S256" then Some("only S256 is supported")
    else None
  }

  function NewSession(req: AuthorizeRequest, id: string, now: Time): Session {
    Session(id, req.clientId, req.redirectUri, req.state, req.codeChallenge, req.codeMethod,
            if req.scope == "" then DEFAULT_SCOPE else req.scope, now)
  }

  function NewCode(s: Session, userId: string, code: string, now: Time): AuthCode {
    AuthCode(code, s.clientId, userId, s.redirectUri, s.codeChallenge, s.scope, now + CODE_TTL, false)
  }

  predicate Complete(req: CodeRequest) {
    req.code != "" && req.clientId != "" && req.redirectUri != "" && req.codeVerifier != ""
  }

  /** The exchange presents the client, the redirect URI and a verifier the code was issued for. */
  predicate Matches(sha: string -> seq<byte>, code: AuthCode, req: CodeRequest) {
    && code.clientId == req.clientId
    && code.redirectUri == req.redirectUri
    && VerifyPkce(sha, req.codeVerifier, code.codeChallenge)
  }

  function FirstToken(code: AuthCode, token: string, now: Time): RefreshToken {
    RefreshToken(token, code.userId, code.clientId, code.scope, now + REFRESH_TTL)
  }

  function NextToken(previous: RefreshToken, token: string, now: Time): RefreshToken {
    RefreshToken(token, previous.userId, previous.clientId, previous.scope, now + REFRESH_TTL)
  }

  function NewAccess(userId: string, scope: string, clientId: string, issuer: string, now: Time): Access {
    Access(userId, scope, clientId, issuer, Unix(now), Unix(now + ACCESS_TTL))
  }

  function GrantForCode(code: AuthCode, req: CodeRequest, token: string, now: Time): Outcome {
    Granted(FirstToken(code, token, now), NewAccess(code.userId, code.scope, code.clientId, req.issuer, now),
            FromCode(code, req), now)
  }

  function GrantForToken(previous: RefreshToken, req: RefreshRequest, token: string, now: Time): Outcome {
    Granted(NextToken(previous, token, now),
            NewAccess(previous.userId, previous.scope, previous.clientId, req.issuer, now),
            FromRefresh(previous), now)
  }
}

/** The OAuth endpoints, one call at a time. Random values are parameters, `None` when the
    generator fails; `Net` says which of a handler's backend calls go through, in order. */
module Handlers {
  import opened Common
  import opened OAuthTypes
  import opened KeyedStore
  import opened Stores
  import opened Grants
  import opened Base64
  import Pkce

  datatype Net = Net(read: bool, first: bool, second: bool)

  function RegisterCall(s: AuthStores, req: RegisterRequest, id: Option<string>, secret: Option<string>, up: bool,
                        now: Time)
    : (r: (AuthStores, Outcome))
  {
    if req.redirectUris == [] then (s, Refused("invalid_request"))
    else if id.None? || secret.None? then (s, Refused("server_error"))
    else
      var c := NewClient(req, id.value, secret.value, now);
      (s.(clients := Put(s.clients, c.clientId, c, up)), Registered(c))
  }

  function CreateCall(s: AuthStores, req: AuthorizeRequest, id: Option<string>, net: Net, now: Time)
    : (r: (AuthStores, Outcome))
  {
    var reply := Ask(s.clients.remote, req.clientId, net.read);
    var known := Reached(s.clients.local, req.clientId, reply);
    var client := if known.Some? then known.value else AutoClient(req, now);
    var clients :=
      if known.Some? then s.clients.(local := Cached(s.clients.local, req.clientId, reply, ClientKey))
      else Put(s.clients, req.clientId, client, net.first);
    if req.redirectUri !in client.redirectUris then (s.(clients := clients), Refused("redirect_uri mismatch"))
    else if id.None? then (s.(clients := clients), Refused("server_error"))
    else
      var sess := NewSession(req, id.value, now);
      (s.(clients := clients, sessions := Put(s.sessions, sess.sessionId, sess, net.second)), Opened(sess, client, req))
  }

  function AuthorizeCall(s: AuthStores, req: AuthorizeRequest, id: Option<string>, net: Net, now: Time)
    : (r: (AuthStores, Outcome))
  {
    if Complaint(req).Some? then (s, Refused(Complaint(req).value)) else CreateCall(s, req, id, net, now)
  }

  /** The client record that an authorize call makes up, if it comes to that. */
  function MadeUp(s: AuthStores, req: AuthorizeRequest, net: Net, now: Time): Option<Client> {
    var known := Reached(s.clients.local, req.clientId, Ask(s.clients.remote, req.clientId, net.read));
    if Complaint(req).None? && known.None? then Some(AutoClient(req, now)) else None
  }

  /** A history with the effect of a call added; a refusal has none. */
  function Note(h: seq<Outcome>, e: Outcome): seq<Outcome> { if e.Refused? then h else h + [e] }

  function NoteClient(h: seq<Outcome>, c: Option<Client>): seq<Outcome> {
    if c.None? then h else h + [Registered(c.value)]
  }

  function CompleteCall(s: AuthStores, sessionId: string, userId: string, code: Option<string>, net: Net, now: Time)
    : (r: (AuthStores, Outcome))
  {
    var reply := Ask(s.sessions.remote, sessionId, net.read);
    var sess := IfLive(Reached(s.sessions.local, sessionId, reply), SessionDeadline, now);
    var sessions := s.sessions.(local := Cached(s.sessions.local, sessionId, reply, SessionKey));
    if sess.None? then (s.(sessions := sessions), Refused("session not found or expired"))
    else if code.None? then (s.(sessions := sessions), Refused("failed to generate auth code"))
    else
      var c := NewCode(sess.value, userId, code.value, now);
      (s.(sessions := Delete(sessions, sessionId, net.second), codes := Put(s.codes, c.code, c, net.first)),
       Issued(c, sess.value, userId))
  }

  function ExchangeCall(sha: string -> seq<byte>, s: AuthStores, req: CodeRequest, token: Option<string>, net: Net,
                        now: Time)
    : (r: (AuthStores, Outcome))
  {
    if !Complete(req) then (s, Refused("invalid_request"))
    else
      var (codes, taken) := Consume(s.codes, req.code, net.read, net.first, now);
      var t := s.(codes := codes);
      if taken.None? || !Matches(sha, taken.value, req) then (t, Refused("invalid_grant"))
      else if token.None? then (t, Refused("server_error"))
      else
        var grant := GrantForCode(taken.value, req, token.value, now);
        (t.(tokens := Put(s.tokens, token.value, grant.token, net.second)), grant)
  }

  function RefreshCall(s: AuthStores, req: RefreshRequest, token: Option<string>, net: Net, now: Time)
    : (r: (AuthStores, Outcome))
  {
    if req.refreshToken == "" || req.clientId == "" then (s, Refused("invalid_request"))
    else
      var reply := Ask(s.tokens.remote, req.refreshToken, net.read);
      var held := IfLive(Reached(s.tokens.local, req.refreshToken, reply), TokenDeadline, now);
      var tokens := s.tokens.(local := Cached(s.tokens.local, req.refreshToken, reply, TokenKey));
      if held.None? || held.value.clientId != req.clientId then (s.(tokens := tokens), Refused("invalid_grant"))
      else
        var rest := Delete(tokens, req.refreshToken, net.first);
        if token.None? then (s.(tokens := rest), Refused("server_error"))
        else
          var grant := GrantForToken(held.value, req, token.value, now);
          (s.(tokens := Put(rest, token.value, grant.token, net.second)), grant)
  }

  class OAuthServer {
    const clients: ClientStore
    const sessions: SessionStore
    const codes: CodeStore
    const tokens: TokenStore

    constructor (clients: ClientStore, sessions: SessionStore, codes: CodeStore, tokens: TokenStore)
      ensures this.clients == clients && this.sessions == sessions && this.codes == codes && this.tokens == tokens
    {
      this.clients, this.sessions, this.codes, this.tokens := clients, sessions, codes, tokens;
    }

    ghost function View(): AuthStores
      reads clients, sessions, codes, tokens
    {
      AuthStores(clients.View(), sessions.View(), codes.View(), tokens.View())
    }

    method HandleRegister(req: RegisterRequest, id: Option<string>, secret: Option<string>, up: bool, now: Time)
      returns (r: Outcome)
      modifies clients
      ensures (View(), r) == RegisterCall(old(View()), req, id, secret, up, now)
    {
      if |req.redirectUris| == 0 {
        return Refused("invalid_request");
      }
      if id.None? {
        return Refused("server_error");
      }
      if secret.None? {
        return Refused("server_error");
      }
      var grantTypes := req.grantTypes;
      if |grantTypes| == 0 {
        grantTypes := ["authorization_code", "refresh_token"];
      }
      var responseTypes := req.responseTypes;
      if |responseTypes| == 0 {
        responseTypes := ["code"];
      }
      var authMethod := req.authMethod;
      if authMethod == "" {
        authMethod := "none";
      }
      var client := Client(id.value, secret.value, req.clientName, req.redirectUris,
                           grantTypes, responseTypes, authMethod, Unix(now));
      clients.Put(client, up);
      return Registered(client);
    }

    /** Validation by the authorize handlers. */
    method HandleAuthorize(req: AuthorizeRequest, id: Option<string>, net: Net, now: Time) returns (r: Outcome)
      modifies clients, sessions
      ensures (View(), r) == AuthorizeCall(old(View()), req, id, net, now)
    {
      if req.redirectUri == "" {
        return Refused("missing redirect_uri");
      }
      if !req.hasHost {
        return Refused("invalid redirect_uri");
      }
      if req.clientId == "" || req.responseType == "" || req.codeChallenge == "" || req.codeMethod == ""
         || req.state == ""
      {
        return Refused("missing required parameters");
      }
      if req.responseType != "code" {
        return Refused("unsupported_response_type");
      }
      if req.codeMethod != "S256" {
        return Refused("only S256 is supported");
      }
      r := CreateAuthSession(req, id, net, now);
    }

    method CreateAuthSession(req: AuthorizeRequest, id: Option<string>, net: Net, now: Time) returns (r: Outcome)
      modifies clients, sessions
      ensures (View(), r) == CreateCall(old(View()), req, id, net, now)
    {
      var client;
      var known := clients.Get(req.clientId, net.read);
      if known.Some? {
        client := known.value;
      } else {
        client := Client(req.clientId, "", "auto-registered", [req.redirectUri],
                         ["authorization_code", "refresh_token"], ["code"], "none", Unix(now));
        clients.Put(client, net.first);
      }
      if req.redirectUri !in client.redirectUris {
        return Refused("redirect_uri mismatch");
      }
      var scope := req.scope;
      if scope == "" {
        scope := DEFAULT_SCOPE;
      }
      if id.None? {
        return Refused("server_error");
      }
      var sess := Session(id.value, req.clientId, req.redirectUri, req.state, req.codeChallenge, req.codeMethod,
                          scope, now);
      sessions.Put(sess, net.second);
      return Opened(sess, client, req);
    }

    method CompleteAuthorization(sessionId: string, userId: string, code: Option<string>, net: Net, now: Time)
      returns (r: Outcome)
      modifies sessions, codes
      ensures (View(), r) == CompleteCall(old(View()), sessionId, userId, code, net, now)
    {
      var sess := sessions.Get(sessionId, net.read, now);
      if sess.None? {
        return Refused("session not found or expired");
      }
      if code.None? {
        return Refused("failed to generate auth code");
      }
      var authCode := AuthCode(code.value, sess.value.clientId, userId, sess.value.redirectUri,
                               sess.value.codeChallenge, sess.value.scope, now + 5 * MINUTE, false);
      codes.Put(authCode, net.first);
      sessions.Delete(sessionId, net.second);
      return Issued(authCode, sess.value, userId);
    }

    method HandleAuthCodeGrant(sha: string -> seq<byte>, req: CodeRequest, token: Option<string>, net: Net, now: Time)
      returns (r: Outcome)
      modifies codes, tokens
      ensures (View(), r) == ExchangeCall(sha, old(View()), req, token, net, now)
    {
      if req.code == "" || req.clientId == "" || req.redirectUri == "" || req.codeVerifier == "" {
        return Refused("invalid_request");
      }
      var authCode := codes.ConsumeCode(req.code, net.read, net.first, now);
      if authCode.None? {
        return Refused("invalid_grant");
      }
      if authCode.value.clientId != req.clientId {
        return Refused("invalid_grant");
      }
      if authCode.value.redirectUri != req.redirectUri {
        return Refused("invalid_grant");
      }
      if !Pkce.VerifyPkce(sha, req.codeVerifier, authCode.value.codeChallenge) {
        return Refused("invalid_grant");
      }
      var access := Access(authCode.value.userId, authCode.value.scope, authCode.value.clientId, req.issuer,
                           Unix(now), Unix(now + 1 * HOUR));
      if token.None? {
        return Refused("server_error");
      }
      var refresh := RefreshToken(token.value, authCode.value.userId, authCode.value.clientId, authCode.value.scope,
                                  now + 7 * DAY);
      tokens.Put(refresh, net.second);
      return Granted(refresh, access, FromCode(authCode.value, req), now);
    }

    method HandleRefreshTokenGrant(req: RefreshRequest, token: Option<string>, net: Net, now: Time) returns (r: Outcome)
      modifies tokens
      ensures (View(), r) == RefreshCall(old(View()), req, token, net, now)
    {
      if req.refreshToken == "" || req.clientId == "" {
        return Refused("invalid_request");
      }
      var held := tokens.Get(req.refreshToken, net.read, now);
      if held.None? {
        return Refused("invalid_grant");
      }
      if held.value.clientId != req.clientId {
        return Refused("invalid_grant");
      }
      tokens.Delete(req.refreshToken, net.first);
      var access := Access(held.value.userId, held.value.scope, held.value.clientId, req.issuer,
                           Unix(now), Unix(now + 1 * HOUR));
      if token.None? {
        return Refused("server_error");
      }
      var refresh := RefreshToken(token.value, held.value.userId, held.value.clientId, held.value.scope, now + 7 * DAY);
      tokens.Put(refresh, net.second);
      return Granted(refresh, access, FromRefresh(held.value), now);
    }
  }
}
