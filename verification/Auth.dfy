/** The values the authentication services exchange (auth/models.go, otp.go, tokens.go, errors.go). */
module Auth {

  /** A clock reading or a duration, in nanoseconds. Readings are positive; 0 is Go's zero time. */
  type Time = int

  datatype Option<+T> = None | Some(value: T)

  datatype Result<+T> = Ok(value: T) | Err(error: Error)

  datatype Error =
    | InvalidUsername | InvalidPassword | InvalidEmail | InvalidMobile | InvalidMobileFormat
    | InvalidOTPCode | InvalidCredentials | InvalidRefreshToken | InvalidToken
    | UserNotFound | UsernameAlreadyExists | EmailAlreadyExists | MobileAlreadyExists
    | SignupVerificationPending | PendingSignupExpired | MobileNotVerified
    | OTPResendTooSoon | OTPResendLimitReached | OTPTooManyRequests
    | TokenExpired | ProfileAlreadyComplete
    | DuplicateKey          // the database's own error, passed on unmapped
    | HashFailed            // bcrypt refused the password
    | ProviderFailed        // the OTP provider could not be reached

  datatype User = User(
    id: nat,
    username: string,
    email: string,
    mobile: string,         // "" when the column is NULL
    mobileVerified: bool,
    role: string,
    profileComplete: bool)

  const ROLE_CUSTOMER := "customer"

  datatype PendingSignup = PendingSignup(
    username: string,
    passwordHash: string,
    email: string,
    mobile: string,
    resendCount: nat,
    lastSentAt: Time,
    expiresAt: Time)

  datatype OTPRequestState = OTPRequestState(mobile: string, resendCount: nat, lastSentAt: Time, expiresAt: Time)

  datatype RefreshSession = RefreshSession(tokenID: string, userID: nat, username: string, expiresAt: Time)

  datatype AccessClaims = AccessClaims(
    subject: string,
    tokenType: string,
    role: string,
    profileComplete: bool,
    issuedAt: Time,
    expiresAt: Time)

  /** Encryption is abstracted away: an access token is its claims. */
  datatype TokenPair = TokenPair(accessToken: AccessClaims, refreshToken: string)

  /** The two random strings drawn for one token pair. */
  datatype Entropy = Entropy(tokenID: string, raw: string)

  datatype RateLimitRule = RateLimitRule(limit: int, window: Time) {
    predicate Enabled() { limit > 0 && window > 0 }
  }

  datatype RateLimitWindow = RateLimitWindow(count: nat, expiresAt: Time)

  datatype CachedUser = CachedUser(user: User, expiresAt: Time)

  datatype Config = Config(
    pendingSignupTTL: Time,
    resendCooldown: Time,
    maxResends: int,
    accessTokenTTL: Time,
    refreshTokenTTL: Time,
    cacheTTL: Option<Time>,       // None: no user cache in front of the database
    requestIP: RateLimitRule,
    requestMobile: RateLimitRule,
    verifyIP: RateLimitRule,
    verifyMobile: RateLimitRule,
    wideDigits: set<char>)        // the digits of unicode.IsDigit beyond Latin-1
  {
    /** The bounds that the start-up check enforces. */
    predicate Valid() {
      && pendingSignupTTL > 0 && resendCooldown >= 0 && maxResends >= 0
      && accessTokenTTL > 0 && refreshTokenTTL > 0
      && (cacheTTL.Some? ==> cacheTTL.value > 0)
    }
  }

  /** The provider's verdict on a code. */
  datatype Verdict = Approved | Rejected | Unreachable

  /** One request, with the answers the outside world gives while it is served. */
  datatype Request =
    | RequestSignup(username: string, password: string, email: string, mobile: string,
                    hash: Option<string>, sent: bool)
    | VerifySignup(mobile: string, code: string, verdict: Verdict)
    | ResendSignup(mobile: string, sent: bool)
    | SignupStatus(mobile: string)
    | RequestLogin(mobile: string, sent: bool)
    | VerifyLogin(mobile: string, code: string, verdict: Verdict)
    | PasswordLogin(username: string, password: string, matches: bool)
    | Refresh(token: string)
    | Logout(token: string)
    | GoogleLogin(identity: string, email: string)
    | CompleteProfile(userID: nat, username: string, mobile: string)
    | CurrentUser(username: string)

  datatype Input = Input(at: Time, ip: string, entropy: Entropy, request: Request)

  datatype Reply =
    | Accepted
    | Failed(error: Error)
    | Status(text: string)
    | Issued(user: User, tokens: TokenPair)
    | Profile(user: User)

  /** GenerateTokenPair: what of the user enters the claims and the session. */
  function GenerateTokenPair(cfg: Config, now: Time, user: User, e: Entropy): (TokenPair, RefreshSession) {
    (TokenPair(AccessClaims(user.username, "access", user.role, user.profileComplete, now, now + cfg.accessTokenTTL),
               e.tokenID + "." + e.raw),
     RefreshSession(e.tokenID, user.id, user.username, now + cfg.refreshTokenTTL))
  }

  /** ParseAccessToken on a genuine token. */
  function ParseAccessToken(claims: AccessClaims, now: Time): Result<AccessClaims> {
    if claims.tokenType != "access" then Err(InvalidToken)
    else if now > claims.expiresAt then Err(TokenExpired)
    else Ok(claims)
  }
}
