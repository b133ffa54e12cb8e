/** Minting and validating signed tokens in the compact form (section 7.1 of RFC 7515). JSON and
    HMAC-SHA256 are parameters. */
module Jwt {
  import opened Common
  import opened Base64
  import opened OAuthTypes
  import opened Grants

  datatype Json = Str(s: string) | Num(n: int) | Null | Other

  type Claims = map<string, Json>

  datatype Codec = Codec(
    marshal: Claims -> seq<byte>,
    unmarshal: seq<byte> -> Option<Claims>,
    mac: (seq<byte>, string) -> seq<byte>)

  /** The JSON pair brings these claims back as they were. */
  predicate RoundTrips(codec: Codec, claims: Claims) {
    codec.unmarshal(codec.marshal(claims)) == Some(claims)
  }

  const HEADER := "{\"alg\":\"HS256\",\"typ\":\"JWT\"}"

  function Ascii(s: string): seq<byte> { seq(|s|, i requires 0 <= i < |s| => s[i] as int % 256) }

  // ---- Minting ----

  function SigningInput(codec: Codec, claims: Claims): string {
    Encode(Ascii(HEADER)) + "." + Encode(codec.marshal(claims))
  }

  function Mint(codec: Codec, secret: seq<byte>, claims: Claims): string {
    var input := SigningInput(codec, claims);
    input + "." + Encode(codec.mac(secret, input))
  }

  function AccessClaims(a: Access): Claims {
    map["sub" := Str(a.sub), "scope" := Str(a.scope), "client_id" := Str(a.clientId),
        "iss" := Str(a.iss), "iat" := Num(a.iat), "exp" := Num(a.exp)]
  }

  function MintAccessToken(codec: Codec, secret: seq<byte>, userId: string, scope: string,
                           clientId: string, issuer: string, now: Time): string
  {
    Mint(codec, secret, AccessClaims(NewAccess(userId, scope, clientId, issuer, now)))
  }

  const LOOPBACK_TTL := 30

  function LoopbackClaims(userId: string, now: Time): Claims {
    map["sub" := Str(userId), "iss" := Str("vire-portal-loopback"),
        "iat" := Num(Unix(now)), "exp" := Num(Unix(now) + LOOPBACK_TTL)]
  }

  function MintLoopbackJwt(codec: Codec, userId: string, secret: seq<byte>, now: Time): string {
    Mint(codec, secret, LoopbackClaims(userId, now))
  }

  // ---- Reading ----

  function IndexOf(s: string, c: char): int
    ensures -1 <= IndexOf(s, c) < |s|
    ensures IndexOf(s, c) >= 0 ==> s[IndexOf(s, c)] == c
  {
    if s == "" then -1
    else if s[0] == c then 0
    else
      var i := IndexOf(s[1..], c);
      if i < 0 then -1 else i + 1
  }

  /** Splits at the separator into at most `n` parts. */
  function SplitN(s: string, sep: char, n: nat): seq<string>
    requires n > 0
    decreases n
  {
    var i := IndexOf(s, sep);
    if n == 1 || i < 0 then [s] else [s[..i]] + SplitN(s[i + 1..], sep, n - 1)
  }

  /** The steps all three validators begin with: three parts, a good signature unless there is no
      secret, and a JSON payload. */
  function Payload(codec: Codec, token: string, secret: seq<byte>): Option<Claims> {
    var parts := SplitN(token, '.', 4);
    if |parts| != 3 then None
    else if |secret| > 0 && Decode(parts[2]) != Some(codec.mac(secret, parts[0] + "." + parts[1])) then None
    else
      var payload := Decode(parts[1]);
      if payload.None? then None else codec.unmarshal(payload.value)
  }

  /** A string field of a decoded record: absent is empty, another type is an error. */
  function StrField(c: Claims, name: string): Option<string> {
    if name !in c || c[name].Null? then Some("")
    else if c[name].Str? then Some(c[name].s)
    else None
  }

  function IntField(c: Claims, name: string): Option<int> {
    if name !in c || c[name].Null? then Some(0)
    else if c[name].Num? then Some(c[name].n)
    else None
  }

  datatype McpClaims = McpClaims(sub: string, exp: int, iss: string, clientId: string, scope: string)

  function ReadMcp(c: Claims): Option<McpClaims> {
    var sub, exp, iss, clientId, scope :=
      StrField(c, "sub"), IntField(c, "exp"), StrField(c, "iss"), StrField(c, "client_id"), StrField(c, "scope");
    if sub.None? || exp.None? || iss.None? || clientId.None? || scope.None? then None
    else Some(McpClaims(sub.value, exp.value, iss.value, clientId.value, scope.value))
  }

  /** The MCP endpoint's validator. */
  function ValidateMcp(codec: Codec, token: string, secret: seq<byte>, now: Time): Option<McpClaims> {
    var payload := Payload(codec, token, secret);
    if payload.None? then None
    else
      var claims := ReadMcp(payload.value);
      if claims.None? then None
      else if claims.value.exp > 0 && claims.value.exp < Unix(now) then None
      else claims
  }

  datatype PortalClaims = PortalClaims(sub: string, email: string, name: string, provider: string, iss: string,
                                       iat: int, exp: int)

  function ReadPortal(c: Claims): Option<PortalClaims> {
    var sub, email, name, provider, iss, iat, exp :=
      StrField(c, "sub"), StrField(c, "email"), StrField(c, "name"), StrField(c, "provider"),
      StrField(c, "iss"), IntField(c, "iat"), IntField(c, "exp");
    if sub.None? || email.None? || name.None? || provider.None? || iss.None? || iat.None? || exp.None? then None
    else Some(PortalClaims(sub.value, email.value, name.value, provider.value, iss.value, iat.value, exp.value))
  }

  /** The portal pages' validator. */
  function ValidatePortal(codec: Codec, token: string, secret: seq<byte>, now: Time): Option<PortalClaims> {
    var payload := Payload(codec, token, secret);
    if payload.None? then None
    else
      var claims := ReadPortal(payload.value);
      if claims.None? then None
      else if claims.value.exp == 0 then None
      else if claims.value.exp < Unix(now) then None
      else claims
  }

  /** The authorize endpoint's reading of the session cookie. */
  function CookieSubject(codec: Codec, cookie: string, secret: seq<byte>, now: Time): Option<string> {
    var payload := if cookie == "" then None else Payload(codec, cookie, secret);
    if payload.None? then None
    else
      var sub, exp := StrField(payload.value, "sub"), IntField(payload.value, "exp");
      if sub.None? || exp.None? then None
      else if exp.value > 0 && exp.value < Unix(now) then None
      else sub
  }

  /** The user it stands for, or empty. */
  function SessionUser(codec: Codec, cookie: string, secret: seq<byte>, now: Time): string {
    var sub := CookieSubject(codec, cookie, secret, now);
    if sub.Some? then sub.value else ""
  }

  // ---- A minted token splits back into what it was made of ----

  lemma {:induction false} IndexOfFirst(a: string, c: char, rest: string)
    requires c !in a
    ensures IndexOf(a + [c] + rest, c) == |a|
    ensures IndexOf(a, c) == -1
  {
    if a == "" {
      assert a + [c] + rest == [c] + rest;
    } else {
      IndexOfFirst(a[1..], c, rest);
      assert (a + [c] + rest)[1..] == a[1..] + [c] + rest;
    }
  }

  lemma SplitThree(a: string, b: string, c: string)
    requires '.' !in a && '.' !in b && '.' !in c
    ensures SplitN(a + "." + b + "." + c, '.', 4) == [a, b, c]
  {
    var token := a + "." + b + "." + c;
    var rest := b + "." + c;
    assert token == a + ['.'] + rest;
    IndexOfFirst(a, '.', rest);
    assert token[..|a|] == a && token[|a| + 1..] == rest;
    assert rest == b + ['.'] + c;
    IndexOfFirst(b, '.', c);
    assert rest[..|b|] == b && rest[|b| + 1..] == c;
    IndexOfFirst(c, '.', "");
    assert SplitN(rest, '.', 3) == [b] + SplitN(c, '.', 2);
  }

  lemma NoDot(b: seq<byte>)
    ensures '.' !in Encode(b)
  {
    EncodeAlphabet(b);
  }

  /** Every minted token has exactly three parts and opens, with its secret, to its claims. */
  lemma MintedTokenOpens(codec: Codec, secret: seq<byte>, claims: Claims)
    requires RoundTrips(codec, claims)
    ensures |SplitN(Mint(codec, secret, claims), '.', 4)| == 3
    ensures Mint(codec, secret, claims) != "" && Payload(codec, Mint(codec, secret, claims), secret) == Some(claims)
  {
    var h, p := Encode(Ascii(HEADER)), Encode(codec.marshal(claims));
    var mac := codec.mac(secret, h + "." + p);
    NoDot(Ascii(HEADER));
    NoDot(codec.marshal(claims));
    NoDot(mac);
    SplitThree(h, p, Encode(mac));
    DecodeEncode(mac);
    DecodeEncode(codec.marshal(claims));
    assert Mint(codec, secret, claims) == h + "." + p + "." + Encode(mac);
  }

  lemma HourLater(userId: string, scope: string, clientId: string, issuer: string, now: Time)
    ensures NewAccess(userId, scope, clientId, issuer, now) ==
            Access(userId, scope, clientId, issuer, Unix(now), Unix(now) + 3600)
  {
    assert ACCESS_TTL == 3600 * SECOND;
  }

  lemma AccessFields(a: Access)
    ensures ReadMcp(AccessClaims(a)) == Some(McpClaims(a.sub, a.exp, a.iss, a.clientId, a.scope))
    ensures ReadPortal(AccessClaims(a)) == Some(PortalClaims(a.sub, "", "", "", a.iss, a.iat, a.exp))
  {
  }

  /** The MCP and cookie validators look at an expiry only when it is positive. */
  predicate Lasts(exp: int, now: Time) { exp <= 0 || Unix(now) <= exp }

  /** The portal's validator wants an expiry and never lets it pass. */
  predicate LastsForPortal(exp: int, now: Time) { exp != 0 && Unix(now) <= exp }

  /** What the validators make of a minted token whose claims all of them can read. */
  lemma Judged(codec: Codec, secret: seq<byte>, c: Claims, m: McpClaims, p: PortalClaims, now: Time)
    requires RoundTrips(codec, c) && ReadMcp(c) == Some(m) && ReadPortal(c) == Some(p)
    ensures m.sub == p.sub && m.exp == p.exp
    ensures
      var token := Mint(codec, secret, c);
      && ValidateMcp(codec, token, secret, now) == (if Lasts(m.exp, now) then Some(m) else None)
      && ValidatePortal(codec, token, secret, now) == (if LastsForPortal(m.exp, now) then Some(p) else None)
      && SessionUser(codec, token, secret, now) == (if Lasts(m.exp, now) then m.sub else "")
  {
    MintedTokenOpens(codec, secret, c);
  }

  /** All three validators read back what was minted, and accept an access token until its expiry;
      what they make of an expiry at or before the epoch differs. */
  lemma AccessTokensAreAccepted(codec: Codec, secret: seq<byte>, userId: string, scope: string,
                                clientId: string, issuer: string, minted: Time, now: Time)
    requires RoundTrips(codec, AccessClaims(NewAccess(userId, scope, clientId, issuer, minted)))
    ensures
      var token := MintAccessToken(codec, secret, userId, scope, clientId, issuer, minted);
      var exp := Unix(minted) + 3600;
      && ValidateMcp(codec, token, secret, now) ==
           (if Lasts(exp, now) then Some(McpClaims(userId, exp, issuer, clientId, scope)) else None)
      && ValidatePortal(codec, token, secret, now) ==
           (if LastsForPortal(exp, now)
            then Some(PortalClaims(userId, "", "", "", issuer, Unix(minted), exp)) else None)
      && SessionUser(codec, token, secret, now) == (if Lasts(exp, now) then userId else "")
  {
    var a := NewAccess(userId, scope, clientId, issuer, minted);
    HourLater(userId, scope, clientId, issuer, minted);
    AccessFields(a);
    Judged(codec, secret, AccessClaims(a), McpClaims(a.sub, a.exp, a.iss, a.clientId, a.scope),
           PortalClaims(a.sub, "", "", "", a.iss, a.iat, a.exp), now);
  }

  lemma LoopbackFields(userId: string, now: Time)
    ensures
      var c, exp := LoopbackClaims(userId, now), Unix(now) + 30;
      && ReadMcp(c) == Some(McpClaims(userId, exp, "vire-portal-loopback", "", ""))
      && ReadPortal(c) == Some(PortalClaims(userId, "", "", "", "vire-portal-loopback", Unix(now), exp))
  {
  }

  lemma LoopbackTokensAreAccepted(codec: Codec, secret: seq<byte>, userId: string, minted: Time, now: Time)
    requires RoundTrips(codec, LoopbackClaims(userId, minted))
    ensures
      var token := MintLoopbackJwt(codec, userId, secret, minted);
      var exp := Unix(minted) + 30;
      && ValidateMcp(codec, token, secret, now) ==
           (if Lasts(exp, now) then Some(McpClaims(userId, exp, "vire-portal-loopback", "", "")) else None)
      && ValidatePortal(codec, token, secret, now) ==
           (if LastsForPortal(exp, now)
            then Some(PortalClaims(userId, "", "", "", "vire-portal-loopback", Unix(minted), exp)) else None)
      && SessionUser(codec, token, secret, now) == (if Lasts(exp, now) then userId else "")
  {
    var c := LoopbackClaims(userId, minted);
    LoopbackFields(userId, minted);
    Judged(codec, secret, c, ReadMcp(c).value, ReadPortal(c).value, now);
  }

  predicate AreStrings(c: Claims, names: set<string>) {
    forall x :: x in names ==> StrField(c, x).Some?
  }

  /** The three validators on every token: where the MCP or the portal validator accepts, so does the
      cookie reader, with the same subject. The MCP validator refuses, beyond that, only for its own
      mistyped fields; the portal's for its own and for an expiry that is absent, zero or in the past. */
  lemma ValidatorsAgree(codec: Codec, token: string, secret: seq<byte>, now: Time)
    ensures
      var payload, cookie := Payload(codec, token, secret), CookieSubject(codec, token, secret, now);
      var mcp, portal := ValidateMcp(codec, token, secret, now), ValidatePortal(codec, token, secret, now);
      && (mcp.Some? <==> cookie.Some? && AreStrings(payload.value, {"iss", "client_id", "scope"}))
      && (portal.Some? <==>
            && cookie.Some? && AreStrings(payload.value, {"iss", "email", "name", "provider"})
            && IntField(payload.value, "iat").Some?
            && LastsForPortal(IntField(payload.value, "exp").value, now))
      && (mcp.Some? ==> Some(mcp.value.sub) == cookie)
      && (portal.Some? ==> Some(portal.value.sub) == cookie)
      && (mcp.Some? && portal.Some? ==> mcp.value.exp == portal.value.exp && mcp.value.iss == portal.value.iss)
  {
    assert SplitN("", '.', 4) == [""];
    var payload := Payload(codec, token, secret);
    if payload.Some? {
      ReadsWhenTyped(payload.value);
    }
  }

  lemma ReadsWhenTyped(c: Claims)
    ensures ReadMcp(c).Some? <==> AreStrings(c, {"sub", "iss", "client_id", "scope"}) && IntField(c, "exp").Some?
    ensures ReadPortal(c).Some? <==>
              && AreStrings(c, {"sub", "iss", "email", "name", "provider"})
              && IntField(c, "exp").Some? && IntField(c, "iat").Some?
  {
  }

  /** So for a token whose other fields have the expected types, the portal is the strictest, by
      exactly the tokens without an expiry and those that expired before the epoch. */
  lemma PortalIsStricter(codec: Codec, token: string, secret: seq<byte>, now: Time)
    requires var payload := Payload(codec, token, secret);
             payload.Some? ==> ReadMcp(payload.value).Some? && ReadPortal(payload.value).Some?
    ensures
      var mcp, portal := ValidateMcp(codec, token, secret, now), ValidatePortal(codec, token, secret, now);
      && (mcp.Some? <==> CookieSubject(codec, token, secret, now).Some?)
      && (portal.Some? ==> mcp.Some?)
      && (mcp.Some? && portal.None? <==>
            mcp.Some? && mcp.value.exp <= 0 && (mcp.value.exp == 0 || mcp.value.exp < Unix(now)))
  {
    ValidatorsAgree(codec, token, secret, now);
    var payload := Payload(codec, token, secret);
    if payload.Some? {
      ReadsWhenTyped(payload.value);
    }
  }
}
