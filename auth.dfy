/// `Server/handler/auth.go`: the admin login with its per-client lockout
/// (`Login`, the `loginAttempts` table) and the bearer-token check
/// (`AuthMiddleware`).  Time is whole seconds since the Unix epoch; token
/// signing and parsing are oracles.
module Auth {
  import opened HandlerCommon

  /// `LoginAttempt`: failures counted, time of the last failure, and the end
  /// of the current lock.
  datatype LoginAttempt = LoginAttempt(count: nat, lastAttempt: int, lockedUntil: int)

  /// Go's zero `time.Time` (1 January of year 1) in Unix seconds: the times
  /// of a fresh entry.
  const ZeroTime: int := -62135596800

  /// Fifteen minutes: both the reset window and the lock length.
  const LockSeconds: int := 900

  const MaxAttempts: nat := 5

  /// Twenty-four hours, the token lifetime and the `expires_in` answered.
  const TokenLifetime: int := 86400

  /// The configured admin credentials.
  datatype Admin = Admin(username: string, password: string)

  /// The claims of an issued token.
  datatype Claims = Claims(user: string, ip: string, iat: int, exp: int)

  /// What `Login` answers: 400, 429 with the minutes left, 401 with the
  /// attempts left (absent once locked), or 200 with a token.
  datatype LoginResponse =
    | MissingCredentials(error: string)
    | TooManyAttempts(error: string, lockedMinutes: int)
    | WrongCredentials(error: string, remainingAttempts: Option<int>)
    | Granted(claims: Claims, expiresIn: int)

  /// The client's entry, a fresh one when it has none.
  function Entry(attempts: map<string, LoginAttempt>, ip: string): LoginAttempt {
    if ip in attempts then attempts[ip] else LoginAttempt(0, ZeroTime, ZeroTime)
  }

  /// `int(time.Until(lockedUntil).Minutes()) + 1`: whole minutes left,
  /// truncated, plus one.
  function LockedMinutes(now: int, lockedUntil: int): (r: int)
    requires now < lockedUntil
    ensures r >= 1
    ensures (r - 1) * 60 <= lockedUntil - now < r * 60
  {
    (lockedUntil - now) / 60 + 1
  }

  /// One call of `Login` from client `ip` at time `now`: the new attempt
  /// table and the answer.
  function LoginStep(attempts: map<string, LoginAttempt>, admin: Admin, username: string, password: string,
                     ip: string, now: int): (r: (map<string, LoginAttempt>, LoginResponse))
    ensures username == "" || password == "" ==> r == (attempts, MissingCredentials("用户名和密码不能为空"))
    ensures r.1.TooManyAttempts? <==> username != "" && password != "" && now < Entry(attempts, ip).lockedUntil
    ensures r.1.TooManyAttempts? ==>
      r.0 == attempts[ip := Entry(attempts, ip)] && r.1.lockedMinutes == LockedMinutes(now, Entry(attempts, ip).lockedUntil)
    ensures r.1.WrongCredentials? ==>
      r.0.Keys == attempts.Keys + {ip} && r.0[ip].lastAttempt == now
      && r.0[ip].count == (if now - Entry(attempts, ip).lastAttempt > LockSeconds then 0
                           else Entry(attempts, ip).count) + 1
      && (forall other :: other in attempts && other != ip ==> r.0[other] == attempts[other])
    ensures r.1.WrongCredentials? ==> (r.1.remainingAttempts.None? <==> r.0[ip].count >= MaxAttempts)
    ensures r.1.WrongCredentials? && r.1.remainingAttempts.None? ==> r.0[ip].lockedUntil == now + LockSeconds
    ensures r.1.WrongCredentials? && r.1.remainingAttempts.Some? ==>
      1 <= r.1.remainingAttempts.value <= 4 && r.1.remainingAttempts.value == MaxAttempts - r.0[ip].count
    ensures r.1.Granted? <==> username != "" && password != "" && now >= Entry(attempts, ip).lockedUntil
                              && username == admin.username && password == admin.password
    ensures r.1.Granted? ==> (r.0 == attempts - {ip} && r.1.expiresIn == TokenLifetime
      && r.1.claims == Claims(username, ip, now, now + TokenLifetime))
  {
    if username == "" || password == "" then (attempts, MissingCredentials("用户名和密码不能为空"))
    else
      var a := Entry(attempts, ip);
      if now < a.lockedUntil then
        (attempts[ip := a], TooManyAttempts("登录失败次数过多，请稍后再试", LockedMinutes(now, a.lockedUntil)))
      else
        var count := if now - a.lastAttempt > LockSeconds then 0 else a.count;
        if username != admin.username || password != admin.password then
          if count + 1 >= MaxAttempts then
            (attempts[ip := LoginAttempt(count + 1, now, now + LockSeconds)],
             WrongCredentials("登录失败次数过多，账户已锁定15分钟", None))
          else
            (attempts[ip := LoginAttempt(count + 1, now, a.lockedUntil)],
             WrongCredentials("用户名或密码错误", Some(MaxAttempts - (count + 1))))
        else
          (attempts - {ip}, Granted(Claims(username, ip, now, now + TokenLifetime), TokenLifetime))
  }

  /// Every entry that has reached the limit is locked for fifteen minutes
  /// from its last failure, and no lock reaches further than that.
  ghost predicate LockInvariant(attempts: map<string, LoginAttempt>) {
    forall ip :: ip in attempts ==>
      attempts[ip].lockedUntil <= attempts[ip].lastAttempt + LockSeconds
      && (attempts[ip].count >= MaxAttempts ==> attempts[ip].lockedUntil == attempts[ip].lastAttempt + LockSeconds)
  }

  /// The clock has not gone back past any recorded failure.
  ghost predicate NotBefore(attempts: map<string, LoginAttempt>, now: int) {
    forall ip :: ip in attempts ==> attempts[ip].lastAttempt <= now
  }

  /// `Login` keeps the lock invariant while the clock runs forward.
  lemma LoginKeepsLockInvariant(attempts: map<string, LoginAttempt>, admin: Admin, username: string,
                                password: string, ip: string, now: int)
    requires LockInvariant(attempts) && NotBefore(attempts, now) && ZeroTime <= now
    ensures LockInvariant(LoginStep(attempts, admin, username, password, ip, now).0)
    ensures NotBefore(LoginStep(attempts, admin, username, password, ip, now).0, now)
  {
    var r := LoginStep(attempts, admin, username, password, ip, now);
    if r.1.WrongCredentials? {
      assert Entry(attempts, ip).lockedUntil <= Entry(attempts, ip).lastAttempt + LockSeconds;
      assert Entry(attempts, ip).lastAttempt <= now || ip !in attempts;
    }
  }

  /// Under the invariant, a locked client is told between 1 and 16 minutes,
  /// and at most 15 once any time has passed since the lock began.
  lemma LockedMinutesRange(attempts: map<string, LoginAttempt>, ip: string, now: int)
    requires LockInvariant(attempts) && ip in attempts
    requires attempts[ip].lastAttempt <= now < attempts[ip].lockedUntil
    ensures 1 <= LockedMinutes(now, attempts[ip].lockedUntil) <= 16
    ensures now > attempts[ip].lastAttempt ==> LockedMinutes(now, attempts[ip].lockedUntil) <= 15
  {
  }

  /// The fifth failure inside the window locks the client: the answer
  /// carries no remaining attempts, and for the next fifteen minutes every
  /// login, even with the right password, is refused with 429.
  lemma FifthFailureLocks(attempts: map<string, LoginAttempt>, admin: Admin, username: string,
                          password: string, ip: string, now: int, later: int, username': string, password': string)
    requires ip in attempts && attempts[ip].count == 4
    requires attempts[ip].lockedUntil <= now && now - attempts[ip].lastAttempt <= LockSeconds
    requires username != "" && password != "" && (username != admin.username || password != admin.password)
    requires now <= later < now + LockSeconds && username' != "" && password' != ""
    ensures var r := LoginStep(attempts, admin, username, password, ip, now);
      r.1 == WrongCredentials("登录失败次数过多，账户已锁定15分钟", None)
      && LoginStep(r.0, admin, username', password', ip, later).1.TooManyAttempts?
  {
  }

  /// A successful login forgets the client's failures.
  lemma SuccessForgets(attempts: map<string, LoginAttempt>, admin: Admin, ip: string, now: int)
    requires admin.username != "" && admin.password != ""
    requires now >= Entry(attempts, ip).lockedUntil
    ensures var r := LoginStep(attempts, admin, admin.username, admin.password, ip, now);
      r.1.Granted? && ip !in r.0 && Entry(r.0, ip) == LoginAttempt(0, ZeroTime, ZeroTime)
  {
  }

  /// The server's attempt table, guarded in the source by a mutex.
  class LoginGuard {
    var attempts: map<string, LoginAttempt>

    constructor()
      ensures attempts == map[]
    {
      attempts := map[];
    }

    /// `Login`: validate, look up or create the client's entry, refuse while
    /// locked, reset a stale count, then count a failure or forget the
    /// entry and issue a token.
    method Login(admin: Admin, username: string, password: string, ip: string, now: int)
      returns (response: LoginResponse)
      modifies this
      ensures (attempts, response) == LoginStep(old(attempts), admin, username, password, ip, now)
    {
      if username == "" || password == "" {
        return MissingCredentials("用户名和密码不能为空");
      }
      var attempt := Entry(attempts, ip);
      attempts := attempts[ip := attempt];
      if now < attempt.lockedUntil {
        return TooManyAttempts("登录失败次数过多，请稍后再试", LockedMinutes(now, attempt.lockedUntil));
      }
      if now - attempt.lastAttempt > LockSeconds {
        attempt := attempt.(count := 0);
      }
      if username != admin.username || password != admin.password {
        attempt := attempt.(count := attempt.count + 1, lastAttempt := now);
        if attempt.count >= MaxAttempts {
          attempt := attempt.(lockedUntil := now + LockSeconds);
          attempts := attempts[ip := attempt];
          assert attempts == old(attempts)[ip := attempt];
          return WrongCredentials("登录失败次数过多，账户已锁定15分钟", None);
        }
        attempts := attempts[ip := attempt];
        assert attempts == old(attempts)[ip := attempt];
        return WrongCredentials("用户名或密码错误", Some(MaxAttempts - attempt.count));
      }
      attempts := attempts - {ip};
      assert attempts == old(attempts) - {ip};
      response := Granted(Claims(username, ip, now, now + TokenLifetime), TokenLifetime);
    }
  }

  /// What the JWT library made of the `Authorization` header: unparseable,
  /// parsed but not valid, claims of the wrong shape, or the user and the
  /// `exp` claim when it is a number.
  datatype TokenCheck = Unparseable | NotValid | BadClaims | Verified(user: string, exp: Option<int>)

  /// The middleware's decision: abort with 401 and a message, or go on as `user`.
  datatype AuthDecision = Unauthorized(error: string) | Proceed(user: string)

  /// `AuthMiddleware` for one request.
  function Authorize(header: string, check: TokenCheck, now: int): (r: AuthDecision)
    ensures header == "" ==> r == Unauthorized("未提供认证令牌")
    ensures r.Proceed? <==> header != "" && check.Verified? && (check.exp.None? || now <= check.exp.value)
    ensures r.Proceed? ==> r.user == check.user
    ensures header != "" && check.Verified? && check.exp.Some? && now > check.exp.value ==>
      r == Unauthorized("令牌已过期，请重新登录")
  {
    if header == "" then Unauthorized("未提供认证令牌")
    else
      match check
      case Unparseable => Unauthorized("令牌无效或已过期")
      case NotValid => Unauthorized("令牌验证失败")
      case BadClaims => Unauthorized("令牌格式错误")
      case Verified(user, exp) =>
        if exp.Some? && now > exp.value then Unauthorized("令牌已过期，请重新登录") else Proceed(user)
  }

  /// What `jwt.Parse` of golang-jwt v5 makes of a token this server signed
  /// with `claims`, at Unix second `now`: the library validates `exp`
  /// itself and fails the parse from the second `exp` on, so the middleware
  /// sees either the claims or a parse error.
  function SignedTokenCheck(claims: Claims, now: int): (r: TokenCheck)
    ensures r.Unparseable? <==> now >= claims.exp
    ensures !r.Unparseable? ==> r == Verified(claims.user, Some(claims.exp))
  {
    if now < claims.exp then Verified(claims.user, Some(claims.exp)) else Unparseable
  }

  /// A token issued by a login is let through while fewer than 24 hours
  /// have passed since it was issued, and refused from then on as invalid
  /// or expired.
  lemma IssuedTokenLifetime(attempts: map<string, LoginAttempt>, admin: Admin, username: string,
                            password: string, ip: string, issuedAt: int, header: string, now: int)
    requires LoginStep(attempts, admin, username, password, ip, issuedAt).1.Granted?
    requires header != ""
    ensures var c := LoginStep(attempts, admin, username, password, ip, issuedAt).1.claims;
      Authorize(header, SignedTokenCheck(c, now), now) == (if now < issuedAt + TokenLifetime
        then Proceed(username) else Unauthorized("令牌无效或已过期"))
  {
  }

  /// The middleware's own `exp` test never fires for a token it signed: the
  /// library has already refused every token whose `exp` has passed.
  lemma OwnExpiryCheckUnreached(claims: Claims, header: string, now: int)
    ensures Authorize(header, SignedTokenCheck(claims, now), now) != Unauthorized("令牌已过期，请重新登录")
  {
  }
}
