/**
 * The request middleware of `src/middleware.ts`: the admin-session guard on
 * `/api/admin`, the fixed security headers and content-security policy,
 * CORS and preflight handling on `/api/`, and the per-IP fixed-window rate
 * limiter whose counters live in a module-level map, with the periodic
 * sweep of expired windows.
 *
 * `Date.now()` is the parameter `now` (milliseconds); `NODE_ENV ===
 * "development"` is the constructor's `isDev`, fixed for the process like
 * the module-level map; the five-minute `setInterval` is not modelled,
 * `Cleanup` is the sweep it runs.
 */
module Middleware {
  import opened Common

  const RateLimitWindow: int := 60 * 1000
  const ApiLimit: int := 60
  const AuthLimit: int := 10

  /** What the middleware reads from a request. */
  datatype Request = Request(path: string, httpMethod: string, adminSession: Option<string>,
                             origin: Option<string>, forwardedFor: Option<string>, realIp: Option<string>)

  /** One IP's counter: requests seen since the window opened at `timestamp`. */
  datatype Window = Window(count: int, timestamp: int)

  type Headers = seq<(string, string)>

  datatype Response =
    | Unauthorized
    | Preflight(headers: Headers)
    | RateLimited(headers: Headers)
    | Pass(headers: Headers)

  // ------------------------------------------------------------ routing

  /** Paths the admin-session guard covers: `/api/admin…` except `/api/admin/login…`. */
  predicate Guarded(path: string) {
    StartsWith(path, "/api/admin") && !StartsWith(path, "/api/admin/login")
  }

  predicate IsApi(path: string) {
    StartsWith(path, "/api/")
  }

  /** The request limit of the path's kind: `auth` for the login route, `api` otherwise. */
  function LimitFor(path: string): (r: int)
    ensures r == (if StartsWith(path, "/api/admin/login") then 10 else 60)
    ensures 1 <= r <= ApiLimit
  {
    if StartsWith(path, "/api/admin/login") then AuthLimit else ApiLimit
  }

  /** `x-forwarded-for || x-real-ip || "unknown"`. */
  function ClientIp(req: Request): (ip: string)
    ensures Present(req.forwardedFor) ==> ip == req.forwardedFor.value
    ensures !Present(req.forwardedFor) && Present(req.realIp) ==> ip == req.realIp.value
    ensures !Present(req.forwardedFor) && !Present(req.realIp) ==> ip == "unknown"
    ensures ip != ""
  {
    if Present(req.forwardedFor) then req.forwardedFor.value
    else if Present(req.realIp) then req.realIp.value
    else "unknown"
  }

  // ------------------------------------------------------------ headers

  /** The part of `script-src` every environment shares. */
  const ScriptSrcBase: string := "script-src 'self' 'unsafe-inline'"
  const UnsafeEval: string := "'unsafe-eval'"

  /** The `script-src` directive: development adds `'unsafe-eval'` for fast refresh. */
  function ScriptSrc(isDev: bool): string {
    if isDev then ScriptSrcBase + " " + UnsafeEval else ScriptSrcBase
  }

  function CspDirectives(isDev: bool): seq<string> {
    [ "default-src 'self'",
      ScriptSrc(isDev),
      "style-src 'self' 'unsafe-inline'",
      "img-src 'self' data: https://res.cloudinary.com https://picsum.photos https://knigovan.com",
      "font-src 'self' data: https://r2cdn.perplexity.ai",
      if isDev then "connect-src 'self' ws://localhost:* wss://localhost:* http://localhost:*" else "connect-src 'self'",
      "object-src 'none'",
      "base-uri 'self'",
      "form-action 'self'",
      "frame-ancestors 'self'" ]
  }

  /** The `Content-Security-Policy` value: the directives joined by `"; "`. */
  function CspPolicy(isDev: bool): string {
    Join(CspDirectives(isDev), "; ")
  }

  /** The headers every request that passes the guard gets, in the order they are set. */
  function SecurityHeaders(isDev: bool): Headers {
    [ ("X-DNS-Prefetch-Control", "on"),
      ("X-XSS-Protection", "1; mode=block"),
      ("X-Content-Type-Options", "nosniff"),
      ("Referrer-Policy", "origin-when-cross-origin"),
      ("X-Frame-Options", "SAMEORIGIN"),
      ("Content-Security-Policy", CspPolicy(isDev)),
      ("Permissions-Policy", "camera=(), microphone=(), geolocation=(), interest-cohort=()") ]
  }

  function CorsHeaders(origin: Option<string>): Headers {
    [ ("Access-Control-Allow-Origin", if Present(origin) then origin.value else "*"),
      ("Access-Control-Allow-Methods", "GET, POST, PUT, DELETE, OPTIONS"),
      ("Access-Control-Allow-Headers", "Content-Type, Authorization"),
      ("Access-Control-Max-Age", "86400") ]
  }

  /** The headers of a request that passed the guard: CORS ones follow on `/api/` paths. */
  function BaseHeaders(security: Headers, req: Request): Headers {
    security + (if IsApi(req.path) then CorsHeaders(req.origin) else [])
  }

  /** The 429 reply's headers: its own two, then every header of the response built so far. */
  function RateLimitedHeaders(base: Headers): Headers {
    [("Content-Type", "application/json"), ("Retry-After", "60")] + base
  }

  /** `script-src` allows `eval` exactly in development; the rest of the policy is fixed. */
  lemma CspEvalOnlyInDev(isDev: bool)
    ensures Contains(ScriptSrc(isDev), UnsafeEval) <==> isDev
    ensures StartsWith(ScriptSrc(isDev), ScriptSrcBase)
  {
    if isDev {
      var d := ScriptSrc(true);
      assert d[..|ScriptSrcBase|] == ScriptSrcBase;
      assert d[|ScriptSrcBase| + 1..] == UnsafeEval;
      assert OccursAt(d, UnsafeEval, |ScriptSrcBase| + 1);
      ContainsIff(d, UnsafeEval);
    } else {
      NoEvalInBase();
    }
  }

  /** The shared part never mentions `'unsafe-eval'`: it has no `v`. */
  lemma NoEvalInBase()
    ensures !Contains(ScriptSrcBase, UnsafeEval)
  {
    assert UnsafeEval[9] == 'v';
    MissingCharNotContained(ScriptSrcBase, UnsafeEval, 'v');
  }

  // ------------------------------------------------------------ the fixed window

  /** A stored counter as the limiter keeps it: at least one request and at most the larger limit. */
  predicate ValidWindow(w: Window) {
    1 <= w.count <= ApiLimit
  }

  predicate Expired(w: Window, now: int) {
    now - w.timestamp > RateLimitWindow
  }

  /**
   * One request against the IP's counter: `None` when it is refused (the
   * counter stays), otherwise the counter stored afterwards.
   */
  function WindowStep(prev: Option<Window>, now: int, limit: int): (next: Option<Window>)
    ensures prev.None? || Expired(prev.value, now) ==> next == Some(Window(1, now))
    ensures prev.Some? && !Expired(prev.value, now) && prev.value.count >= limit ==> next.None?
    ensures prev.Some? && !Expired(prev.value, now) && prev.value.count < limit
            ==> next == Some(Window(prev.value.count + 1, prev.value.timestamp))
  {
    if prev.None? || Expired(prev.value, now) then Some(Window(1, now))
    else if prev.value.count >= limit then None
    else Some(Window(prev.value.count + 1, prev.value.timestamp))
  }

  /** A stored count never passes 60: a request is admitted only below its path's limit. */
  lemma WindowStepValid(prev: Option<Window>, now: int, limit: int)
    requires prev.Some? ==> ValidWindow(prev.value)
    requires limit <= ApiLimit
    ensures WindowStep(prev, now, limit).Some? ==> ValidWindow(WindowStep(prev, now, limit).value)
    ensures WindowStep(prev, now, limit).Some? && prev.Some? && !Expired(prev.value, now)
            ==> prev.value.count < limit
  {
  }

  /**
   * The counter is shared by both path kinds: an IP that used ten or more
   * API requests in the current window is refused on the login route.
   */
  lemma SharedCounter(w: Window, now: int)
    requires !Expired(w, now) && w.count >= AuthLimit
    ensures WindowStep(Some(w), now, LimitFor("/api/admin/login")).None?
  {
    assert StartsWith("/api/admin/login", "/api/admin/login");
  }

  /** Requests admitted, and the counter left, when requests arrive at the given times. */
  function Replay(w: Option<Window>, times: seq<int>, limit: int): (nat, Option<Window>)
    decreases |times|
  {
    if times == [] then (0, w)
    else
      var next := WindowStep(w, times[0], limit);
      var (n, last) := Replay(if next.Some? then next else w, times[1..], limit);
      (n + (if next.Some? then 1 else 0), last)
  }

  /**
   * Within one window the limiter admits exactly `limit - count` more
   * requests and refuses the rest: the promise the limiter keeps.
   */
  lemma {:induction false} ReplayWithinWindow(w: Window, times: seq<int>, limit: int)
    requires 1 <= w.count
    requires forall i :: 0 <= i < |times| ==> !Expired(w, times[i])
    ensures var (n, last) := Replay(Some(w), times, limit);
      n == Min(|times|, Max(0, limit - w.count))
      && last.Some? && last.value.timestamp == w.timestamp
      && last.value.count == w.count + n
    decreases |times|
  {
    if times != [] {
      var next := WindowStep(Some(w), times[0], limit);
      if next.Some? {
        var w' := Window(w.count + 1, w.timestamp);
        assert forall i :: 0 <= i < |times[1..]| ==> !Expired(w', times[1..][i]) by {
          forall i | 0 <= i < |times[1..]| ensures !Expired(w', times[1..][i]) {
            assert times[1..][i] == times[i + 1];
          }
        }
        ReplayWithinWindow(w', times[1..], limit);
      } else {
        assert forall i :: 0 <= i < |times[1..]| ==> !Expired(w, times[1..][i]) by {
          forall i | 0 <= i < |times[1..]| ensures !Expired(w, times[1..][i]) {
            assert times[1..][i] == times[i + 1];
          }
        }
        ReplayWithinWindow(w, times[1..], limit);
      }
    }
  }

  /** Entries the sweep keeps: those whose window has not expired. */
  function Unexpired(m: map<string, Window>, now: int): map<string, Window> {
    map ip | ip in m && !Expired(m[ip], now) :: m[ip]
  }

  /** Every counter the limiter stores is valid. */
  ghost predicate ValidCounts(m: map<string, Window>) {
    forall ip :: ip in m ==> ValidWindow(m[ip])
  }

  // ------------------------------------------------------------ the middleware

  class RequestGate {
    /** `ipRequestCounts`. */
    var counts: map<string, Window>
    /** The security headers and policy of the process's environment. */
    const security: Headers

    ghost predicate Valid()
      reads this
    {
      ValidCounts(counts)
    }

    constructor(isDev: bool)
      ensures counts == map[] && Valid()
      ensures security == SecurityHeaders(isDev)
    {
      security := SecurityHeaders(isDev);
      counts := map[];
    }

    /** The rate-limit bookkeeping for one API request: whether it is admitted. */
    method CountRequest(ip: string, limit: int, now: int) returns (admitted: bool)
      requires Valid() && limit <= ApiLimit
      modifies this
      ensures Valid()
      ensures var next := WindowStep(if ip in old(counts) then Some(old(counts)[ip]) else None, now, limit);
        admitted == next.Some?
        && counts == (if next.None? then old(counts) else old(counts)[ip := next.value])
    {
      var prev := if ip in counts then Some(counts[ip]) else None;
      WindowStepValid(prev, now, limit);
      if prev.None? || now - prev.value.timestamp > RateLimitWindow {
        counts := counts[ip := Window(1, now)];
        admitted := true;
      } else if prev.value.count >= limit {
        admitted := false;
      } else {
        counts := counts[ip := Window(prev.value.count + 1, prev.value.timestamp)];
        admitted := true;
      }
    }

    /** `middleware(request)`. */
    method Handle(req: Request, now: int) returns (resp: Response)
      requires Valid()
      modifies this
      ensures Valid()
      ensures resp.Unauthorized? <==> Guarded(req.path) && req.adminSession != Some("1")
      ensures resp.Preflight? <==> !resp.Unauthorized? && IsApi(req.path) && req.httpMethod == "OPTIONS"
      ensures resp.Preflight? ==> resp.headers == BaseHeaders(security, req)
      ensures resp.RateLimited? ==> IsApi(req.path) && resp.headers == RateLimitedHeaders(BaseHeaders(security, req))
      ensures resp.Pass? ==> resp.headers == BaseHeaders(security, req)
      ensures resp.Unauthorized? || resp.Preflight? || !IsApi(req.path) ==> counts == old(counts)
      ensures !resp.Unauthorized? && IsApi(req.path) && req.httpMethod != "OPTIONS" ==>
        var ip := ClientIp(req);
        var next := WindowStep(if ip in old(counts) then Some(old(counts)[ip]) else None, now, LimitFor(req.path));
        (resp.RateLimited? <==> next.None?)
        && counts == (if next.None? then old(counts) else old(counts)[ip := next.value])
    {
      if Guarded(req.path) {
        if req.adminSession.None? || req.adminSession.value == "" || req.adminSession.value != "1" {
          return Unauthorized;
        }
      }
      var headers := BaseHeaders(security, req);
      if IsApi(req.path) {
        if req.httpMethod == "OPTIONS" {
          return Preflight(headers);
        }
        var ip, limit := ClientIp(req), LimitFor(req.path);
        var admitted := CountRequest(ip, limit, now);
        if !admitted {
          return RateLimited(RateLimitedHeaders(headers));
        }
      }
      return Pass(headers);
    }

    /** The periodic sweep: one pass over the entries, deleting each expired window. */
    method Cleanup(now: int)
      requires Valid()
      modifies this
      ensures Valid()
      ensures counts == Unexpired(old(counts), now)
    {
      ghost var start := counts;
      var pending := counts.Keys;
      while pending != {}
        invariant pending <= start.Keys
        invariant forall ip :: ip in counts <==> ip in start && (ip in pending || !Expired(start[ip], now))
        invariant forall ip :: ip in counts ==> counts[ip] == start[ip]
        decreases pending
      {
        var ip :| ip in pending;
        if now - counts[ip].timestamp > RateLimitWindow {
          counts := counts - {ip};
        }
        pending := pending - {ip};
      }
      assert counts.Keys == Unexpired(start, now).Keys;
    }
  }

  /** The sweep forgets only windows that the next request would restart anyway. */
  lemma CleanupUnseen(m: map<string, Window>, now: int, t: int, ip: string, limit: int)
    requires now <= t
    ensures WindowStep(if ip in Unexpired(m, now) then Some(Unexpired(m, now)[ip]) else None, t, limit)
         == WindowStep(if ip in m then Some(m[ip]) else None, t, limit)
  {
  }
}
