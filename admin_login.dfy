/**
 * The admin login route of `src/app/api/admin/login/route.ts`: a per-IP
 * attempt counter over a 15-minute window kept in a module-level map,
 * counted before the body is read, then the password checks, and on
 * success the session cookie and the reset of the IP's counter.
 *
 * `Date.now()` is the parameter `now`; the parsed JSON body and
 * `ADMIN_PASSWORD` are parameters; `NODE_ENV === "production"` is the
 * parameter `production`.
 */
module AdminLogin {
  import opened Common

  const MaxLoginAttempts: int := 5
  const LoginWindow: int := 15 * 60 * 1000

  /** One IP's attempts since the window opened at `timestamp`. */
  datatype Attempts = Attempts(count: int, timestamp: int)

  /** What `await req.json()` yields. */
  datatype Body = Unparsable | JsonNull | NotObject | Fields(fields: JsonBody)

  datatype Cookie = Cookie(name: string, value: string, httpOnly: bool, secure: bool,
                           sameSite: string, path: string, maxAge: int)

  datatype LoginReply =
    | TooManyAttempts        // 429
    | PasswordRequired       // 400
    | InvalidCredentials     // 401
    | LoggedIn(cookie: Cookie)
    | AuthenticationFailed   // 500: the body could not be read

  function StatusOf(r: LoginReply): int {
    match r
    case TooManyAttempts => 429
    case PasswordRequired => 400
    case InvalidCredentials => 401
    case LoggedIn(_) => 200
    case AuthenticationFailed => 500
  }

  /** `COOKIE_OPTIONS` with the `admin_session` flag. */
  function SessionCookie(production: bool): Cookie {
    Cookie("admin_session", "1", true, production, "strict", "/", 24 * 60 * 60)
  }

  predicate InWindow(a: Attempts, now: int) {
    now - a.timestamp < LoginWindow
  }

  /**
   * The attempt bookkeeping: `None` when the IP is locked out (its record
   * stays as it was), otherwise the record stored before the body is read.
   */
  function CountAttempt(prev: Option<Attempts>, now: int): (next: Option<Attempts>)
    ensures prev.Some? && InWindow(prev.value, now) && prev.value.count >= MaxLoginAttempts ==> next.None?
    ensures prev.Some? && InWindow(prev.value, now) && prev.value.count < MaxLoginAttempts
            ==> next == Some(Attempts(prev.value.count + 1, prev.value.timestamp))
    ensures prev.None? || !InWindow(prev.value, now) ==> next == Some(Attempts(1, now))
  {
    if prev.Some? && now - prev.value.timestamp < LoginWindow then
      if prev.value.count >= MaxLoginAttempts then None
      else Some(Attempts(prev.value.count + 1, prev.value.timestamp))
    else Some(Attempts(1, now))
  }

  /** `const { password } = body`: `None` when destructuring throws (a `null` body) or the body is unreadable. */
  function PasswordOf(body: Body): Option<Option<Json>> {
    match body
    case Unparsable => None
    case JsonNull => None
    case NotObject => Some(None)
    case Fields(fs) => Some(JsonField(fs, "password"))
  }

  /** The reply once the attempt has been counted. */
  function CheckPassword(body: Body, adminPassword: string, production: bool): (r: LoginReply)
    ensures r.LoggedIn? <==> PasswordOf(body) == Some(Some(JStr(adminPassword))) && adminPassword != ""
    ensures r.LoggedIn? ==> r.cookie == SessionCookie(production)
    ensures r == PasswordRequired <==> PasswordOf(body).Some? && !TruthyField(PasswordOf(body).value)
    ensures r == AuthenticationFailed <==> PasswordOf(body).None?
  {
    var password := PasswordOf(body);
    if password.None? then AuthenticationFailed
    else if !TruthyField(password.value) then PasswordRequired
    else if password.value.value != JStr(adminPassword) then InvalidCredentials
    else LoggedIn(SessionCookie(production))
  }

  /** A stored record as the route keeps it: between one and five attempts. */
  predicate ValidAttempts(a: Attempts) {
    1 <= a.count <= MaxLoginAttempts
  }

  lemma CountAttemptValid(prev: Option<Attempts>, now: int)
    requires prev.Some? ==> ValidAttempts(prev.value)
    ensures CountAttempt(prev, now).Some? ==> ValidAttempts(CountAttempt(prev, now).value)
  {
  }

  class LoginLimiter {
    /** `loginAttempts`. */
    var attempts: map<string, Attempts>

    ghost predicate Valid()
      reads this
    {
      forall ip :: ip in attempts ==> ValidAttempts(attempts[ip])
    }

    constructor()
      ensures attempts == map[] && Valid()
    {
      attempts := map[];
    }

    /** `POST(req)`. */
    method Post(forwardedFor: Option<string>, body: Body, adminPassword: string, now: int, production: bool)
      returns (reply: LoginReply)
      requires Valid()
      modifies this
      ensures Valid()
      ensures var ip := if Present(forwardedFor) then forwardedFor.value else "unknown";
        var next := CountAttempt(if ip in old(attempts) then Some(old(attempts)[ip]) else None, now);
        (next.None? ==> reply == TooManyAttempts && attempts == old(attempts))
        && (next.Some? ==> reply == CheckPassword(body, adminPassword, production))
        && (next.Some? && !reply.LoggedIn? ==> attempts == old(attempts)[ip := next.value])
        && (reply.LoggedIn? ==> attempts == old(attempts) - {ip})
    {
      var ip := if Present(forwardedFor) then forwardedFor.value else "unknown";
      var prev := if ip in attempts then Some(attempts[ip]) else None;
      CountAttemptValid(prev, now);
      if prev.Some? && now - prev.value.timestamp < LoginWindow {
        if prev.value.count >= MaxLoginAttempts {
          return TooManyAttempts;
        }
        attempts := attempts[ip := Attempts(prev.value.count + 1, prev.value.timestamp)];
      } else {
        attempts := attempts[ip := Attempts(1, now)];
      }
      reply := CheckPassword(body, adminPassword, production);
      if reply.LoggedIn? {
        attempts := attempts - {ip};
      }
    }
  }

  /** One attempt by one IP from its record `a`: the record afterwards (`None` once forgotten) and the reply. */
  function Attempt(a: Option<Attempts>, body: Body, now: int, adminPassword: string): (Option<Attempts>, LoginReply) {
    var next := CountAttempt(a, now);
    if next.None? then (a, TooManyAttempts)
    else
      var reply := CheckPassword(body, adminPassword, false);
      (if reply.LoggedIn? then None else next, reply)
  }

  /**
   * A missing and a wrong password both use up an attempt: after five
   * unsuccessful attempts inside one window even the right password is
   * refused with 429 until the window has passed.
   */
  lemma {:induction false} LockoutAfterFive(start: int, bodies: seq<Body>, times: seq<int>, adminPassword: string, last: int)
    requires |bodies| == 5 && |times| == 5
    requires forall i :: 0 <= i < 5 ==> !CheckPassword(bodies[i], adminPassword, false).LoggedIn?
    requires times[0] == start
    requires forall i :: 0 <= i < 5 ==> start <= times[i] && times[i] - start < LoginWindow
    requires start <= last && last - start < LoginWindow
    ensures var a1 := Attempt(None, bodies[0], times[0], adminPassword).0;
      var a2 := Attempt(a1, bodies[1], times[1], adminPassword).0;
      var a3 := Attempt(a2, bodies[2], times[2], adminPassword).0;
      var a4 := Attempt(a3, bodies[3], times[3], adminPassword).0;
      var a5 := Attempt(a4, bodies[4], times[4], adminPassword).0;
      a5 == Some(Attempts(5, start))
      && Attempt(a5, Fields(map["password" := JStr(adminPassword)]), last, adminPassword).1 == TooManyAttempts
  {
    var a1 := Attempt(None, bodies[0], times[0], adminPassword).0;
    assert a1 == Some(Attempts(1, start));
    var a2 := Attempt(a1, bodies[1], times[1], adminPassword).0;
    assert a2 == Some(Attempts(2, start));
    var a3 := Attempt(a2, bodies[2], times[2], adminPassword).0;
    assert a3 == Some(Attempts(3, start));
    var a4 := Attempt(a3, bodies[3], times[3], adminPassword).0;
    assert a4 == Some(Attempts(4, start));
  }

  /** A successful login forgets the IP's attempts, so its next attempt opens a fresh window. */
  lemma SuccessResets(a: Option<Attempts>, now: int, later: int, adminPassword: string, body: Body)
    requires CountAttempt(a, now).Some?
    requires CheckPassword(body, adminPassword, false).LoggedIn?
    ensures Attempt(a, body, now, adminPassword).0 == None
    ensures CountAttempt(Attempt(a, body, now, adminPassword).0, later) == Some(Attempts(1, later))
  {
  }

  /**
   * The login window is half-open: an attempt exactly fifteen minutes after
   * the window opened starts a fresh window, one a millisecond earlier is
   * still locked out.
   */
  lemma LoginWindowBoundary(a: Attempts)
    requires a.count >= MaxLoginAttempts
    ensures CountAttempt(Some(a), a.timestamp + LoginWindow) == Some(Attempts(1, a.timestamp + LoginWindow))
    ensures CountAttempt(Some(a), a.timestamp + LoginWindow - 1).None?
  {
  }
}
