/** Values shared by every part of the model. */
module Common {
  datatype Option<+T> = None | Some(value: T)

  /** Instants and durations in nanoseconds, as Go's `time` package counts them. */
  type Time = int

  const SECOND: Time := 1_000_000_000
  const MINUTE: Time := 60 * SECOND
  const HOUR: Time := 60 * MINUTE
  const DAY: Time := 24 * HOUR

  /** Whole seconds since the epoch, rounding down. */
  function Unix(t: Time): int { t / SECOND }
}

/** The records the OAuth server keeps. */
module OAuthTypes {
  import opened Common

  const SESSION_TTL: Time := 10 * MINUTE
  const CODE_TTL: Time := 5 * MINUTE
  const REFRESH_TTL: Time := 7 * DAY
  const ACCESS_TTL: Time := 1 * HOUR

  datatype Client = Client(
    clientId: string,
    clientSecret: string,
    clientName: string,
    redirectUris: seq<string>,
    grantTypes: seq<string>,
    responseTypes: seq<string>,
    authMethod: string,
    createdAt: int)

  datatype Session = Session(
    sessionId: string,
    clientId: string,
    redirectUri: string,
    state: string,
    codeChallenge: string,
    codeMethod: string,
    scope: string,
    createdAt: Time)

  datatype AuthCode = AuthCode(
    code: string,
    clientId: string,
    userId: string,
    redirectUri: string,
    codeChallenge: string,
    scope: string,
    expiresAt: Time,
    used: bool)

  datatype RefreshToken = RefreshToken(
    token: string,
    userId: string,
    clientId: string,
    scope: string,
    expiresAt: Time)

  /** The last instant at which each kind of record is still honoured. */
  function SessionDeadline(s: Session): Time { s.createdAt + SESSION_TTL }
  function CodeDeadline(c: AuthCode): Time { c.expiresAt }
  function TokenDeadline(t: RefreshToken): Time { t.expiresAt }
}
