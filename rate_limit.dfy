/**
 * The backend's two sliding-window rate limiters. Each keeps, per client
 * address, the times of the requests it let through; a request first prunes
 * that list to the times still inside the window, is refused when the pruned
 * list is already at the limit, and otherwise is recorded and passed on.
 *
 * Time is an integer number of seconds supplied by the caller, and the
 * downstream application is abstract: `Forwarded` stands for its response
 * with the listed headers added.
 */
module RateLimit {
  import opened Basics
  import opened Text

  const GeneralWindow := 60
  const LoginWindow := 300
  const DefaultRequestsPerMinute := 60
  const DefaultMaxAttempts := 5
  const LoginPath: String := "/api/auth/login"

  datatype Response =
    | TooManyRequests(status: int, detail: String)
    | Forwarded(headers: seq<(String, String)>)

  /** `request.client.host`, or "unknown" when the connection has no client address. */
  function ClientIp(client: Option<String>): String
  {
    if client.Some? then client.value else "unknown"
  }

  function Within(now: int, window: int): int -> bool
  {
    (t: int) => now - t < window
  }

  /** The recorded times still inside the window ending at now, in their order. */
  function Recent(times: seq<int>, now: int, window: int): (r: seq<int>)
    ensures |r| <= |times|
    ensures forall i :: 0 <= i < |r| ==> now - r[i] < window
  {
    Filter(times, Within(now, window))
  }

  /** The list an address has after pruning: an address seen for the first time starts empty. */
  function Pruned(table: map<String, seq<int>>, ip: String, now: int, window: int): seq<int>
  {
    if ip in table then Recent(table[ip], now, window) else []
  }

  /**
   * One request of an address whose pruned list is kept: refused when the
   * list has reached the limit, else recorded. Returns the address's new list
   * and whether the request goes through.
   */
  function Admit(kept: seq<int>, now: int, limit: int): (r: (seq<int>, bool))
    ensures r.1 <==> |kept| < limit
    ensures r.1 ==> r.0 == kept + [now] && 0 <= limit - |r.0| <= limit - 1
    ensures !r.1 ==> r.0 == kept
    ensures |r.0| <= Max(limit, |kept|)
  {
    if |kept| >= limit then (kept, false) else (kept + [now], true)
  }

  /** Pruning keeps exactly the times inside the window. */
  lemma RecentMembers(times: seq<int>, now: int, window: int)
    ensures forall t :: t in Recent(times, now, window) <==> t in times && now - t < window
  {
    FilterMembers(times, Within(now, window));
  }

  /** Pruning again later prunes from the original list: an earlier prune loses nothing a later one would keep. */
  lemma {:induction false} RecentLater(times: seq<int>, earlier: int, now: int, window: int)
    requires earlier <= now
    ensures Recent(Recent(times, earlier, window), now, window) == Recent(times, now, window)
    decreases |times|
  {
    if |times| > 0 {
      RecentLater(times[1..], earlier, now, window);
    }
  }

  /** A request recorded now is inside every positive window ending now. */
  lemma RecentAppendNow(times: seq<int>, now: int, window: int)
    requires window > 0
    ensures Recent(times + [now], now, window) == Recent(times, now, window) + [now]
  {
    FilterAppend(times, [now], Within(now, window));
  }

  /** The requests of one address at the given times, from a fresh table: its final list and the times let through. */
  function Serve(times: seq<int>, limit: int, window: int): (seq<int>, seq<int>)
    decreases |times|
  {
    if |times| == 0 then ([], [])
    else
      var before := Serve(times[..|times| - 1], limit, window);
      var now := times[|times| - 1];
      var r := Admit(Recent(before.0, now, window), now, limit);
      (r.0, before.1 + (if r.1 then [now] else []))
  }

  predicate NonDecreasing(times: seq<int>)
  {
    forall i, j :: 0 <= i < j < |times| ==> times[i] <= times[j]
  }

  /**
   * With a clock that does not go back, an address's stored list is exactly
   * the requests let through in the window ending at its latest request, and
   * it never holds more than the limit.
   */
  lemma {:induction false} ServeKeepsWindow(times: seq<int>, limit: int, window: int)
    requires NonDecreasing(times) && |times| > 0 && window > 0
    ensures var r := Serve(times, limit, window);
      r.0 == Recent(r.1, times[|times| - 1], window) && |r.0| <= Max(limit, 0)
    decreases |times|
  {
    var prefix := times[..|times| - 1];
    var now := times[|times| - 1];
    var before := Serve(prefix, limit, window);
    var kept := Recent(before.0, now, window);
    if |prefix| == 0 {
      assert before == ([], []);
    } else {
      ServeKeepsWindow(prefix, limit, window);
      var last := prefix[|prefix| - 1];
      assert last <= now;
      RecentLater(before.1, last, now, window);
      assert kept == Recent(before.1, now, window);
    }
    if |kept| < limit {
      RecentAppendNow(before.1, now, window);
    } else {
      assert before.1 + [] == before.1;
    }
  }

  /** No window of the limiter's length ending at a request lets more than the limit through. */
  lemma AtMostLimitPerWindow(times: seq<int>, limit: int, window: int)
    requires NonDecreasing(times) && |times| > 0 && window > 0 && limit >= 0
    ensures |Recent(Serve(times, limit, window).1, times[|times| - 1], window)| <= limit
  {
    ServeKeepsWindow(times, limit, window);
  }

  /** `RateLimitMiddleware`: 60 seconds, `requests_per_minute` requests per address. */
  class RateLimitMiddleware {
    const requestsPerMinute: int
    var requests: map<String, seq<int>>

    constructor (requestsPerMinute: int)
      ensures this.requestsPerMinute == requestsPerMinute && requests == map[]
    {
      this.requestsPerMinute := requestsPerMinute;
      requests := map[];
    }

    /**
     * `dispatch`: only the entry of the request's address is touched. A refused
     * request keeps the pruning; a passed one reports the limit and what is
     * left of it.
     */
    method Dispatch(client: Option<String>, now: int) returns (response: Response)
      modifies this
      ensures var ip := ClientIp(client);
        var kept := Pruned(old(requests), ip, now, GeneralWindow);
        var r := Admit(kept, now, requestsPerMinute);
        requests == old(requests)[ip := r.0]
        && (!r.1 ==> response == TooManyRequests(429, "Too many requests. Please try again later."))
        && (r.1 ==>
              requestsPerMinute >= 1
              && response == Forwarded([("X-RateLimit-Limit", NatToString(requestsPerMinute)),
                                        ("X-RateLimit-Remaining", NatToString(requestsPerMinute - |r.0|))]))
    {
      var ip := ClientIp(client);
      var kept := if ip in requests then Recent(requests[ip], now, GeneralWindow) else [];
      requests := requests[ip := kept];
      if |requests[ip]| >= requestsPerMinute {
        return TooManyRequests(429, "Too many requests. Please try again later.");
      }
      requests := requests[ip := requests[ip] + [now]];
      response := Forwarded([("X-RateLimit-Limit", NatToString(requestsPerMinute)),
                             ("X-RateLimit-Remaining", NatToString(requestsPerMinute - |requests[ip]|))]);
    }
  }

  /** `LoginRateLimitMiddleware`: only the login path, 300 seconds, `max_attempts` attempts per address. */
  class LoginRateLimitMiddleware {
    const maxAttempts: int
    var attempts: map<String, seq<int>>

    constructor (maxAttempts: int)
      ensures this.maxAttempts == maxAttempts && attempts == map[]
    {
      this.maxAttempts := maxAttempts;
      attempts := map[];
    }

    /** `dispatch`: every other path passes through untouched. */
    method Dispatch(path: String, client: Option<String>, now: int) returns (response: Response)
      modifies this
      ensures path != LoginPath ==> attempts == old(attempts) && response == Forwarded([])
      ensures path == LoginPath ==>
        var ip := ClientIp(client);
        var r := Admit(Pruned(old(attempts), ip, now, LoginWindow), now, maxAttempts);
        attempts == old(attempts)[ip := r.0]
        && (!r.1 ==> response == TooManyRequests(429, "Too many login attempts. Please try again in 5 minutes."))
        && (r.1 ==> response == Forwarded([]))
    {
      if path != LoginPath {
        return Forwarded([]);
      }
      var ip := ClientIp(client);
      var kept := if ip in attempts then Recent(attempts[ip], now, LoginWindow) else [];
      attempts := attempts[ip := kept];
      if |attempts[ip]| >= maxAttempts {
        return TooManyRequests(429, "Too many login attempts. Please try again in 5 minutes.");
      }
      attempts := attempts[ip := attempts[ip] + [now]];
      response := Forwarded([]);
    }
  }
}
