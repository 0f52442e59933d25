/**
 * The token-verification endpoint (app/api/auth/verify/route.ts): the mapping from a verification
 * outcome to an HTTP status and message, and the per-IP fixed-window rate limiter kept in a
 * process-wide map.
 */
module VerifyRoute {
  import opened Options

  /** 15 minutes in milliseconds. */
  const WindowMs: int := 15 * 60 * 1000
  const MaxRequests: int := 10
  /** The key of a request whose IP address is unknown. */
  const UnknownIp: string := "unknown"

  // ---------------------------------------------------------------------------------------------
  // POST: the verification outcome as a response

  /** The decoded account the identity provider's admin API returns. */
  datatype UserRecord = UserRecord(
    uid: string,
    email: Option<string>,
    displayName: Option<string>,
    photoURL: Option<string>,
    emailVerified: bool,
    disabled: bool)

  /**
   * What the body and the admin API gave: a body that is not JSON, a token (absent when the
   * field is missing), and the admin API's answer for it.
   */
  datatype Body = Malformed | Json(token: Option<string>)
  datatype Verification = Verified(user: UserRecord) | Rejected(code: string)

  datatype Reply =
    | Success(user: UserRecord)
    | Error(status: int, message: string)

  /** `!token`: an absent token and the empty string are both missing. */
  predicate TokenMissing(token: Option<string>) {
    token.None? || token.value == ""
  }

  /**
   * The POST handler. `verification` is consulted only when a token is present; a body that
   * cannot be parsed throws inside the `try` and has no error code.
   */
  function Post(body: Body, verification: Verification): (r: Reply)
    ensures body.Json? && TokenMissing(body.token) <==> r == Error(400, "No token provided")
    ensures r.Success? <==> body.Json? && !TokenMissing(body.token) && verification.Verified?
    ensures r.Success? ==> r.user == verification.user
    ensures r.Error? && r.status != 400 ==> r.status == 401
    ensures r == Error(401, "Token expired")
            <==> body.Json? && !TokenMissing(body.token) && verification == Rejected("auth/id-token-expired")
    ensures r == Error(401, "Token revoked")
            <==> body.Json? && !TokenMissing(body.token) && verification == Rejected("auth/id-token-revoked")
  {
    match body
    case Malformed => Error(401, "Invalid token")
    case Json(token) =>
      if TokenMissing(token) then Error(400, "No token provided")
      else
        match verification
        case Verified(user) => Success(user)
        case Rejected(code) =>
          if code == "auth/id-token-expired" then Error(401, "Token expired")
          else if code == "auth/id-token-revoked" then Error(401, "Token revoked")
          else Error(401, "Invalid token")
  }

  /** Any failure other than the two named codes reads "Invalid token". */
  lemma {:induction false} OtherFailuresAreInvalid(token: string, code: string)
    requires token != ""
    requires code != "auth/id-token-expired" && code != "auth/id-token-revoked"
    ensures Post(Json(Some(token)), Rejected(code)) == Error(401, "Invalid token")
    ensures Post(Malformed, Rejected(code)) == Error(401, "Invalid token")
  {
  }

  // ---------------------------------------------------------------------------------------------
  // The rate limiter

  datatype Entry = Entry(count: int, resetTime: int)
  datatype Verdict = Allow | TooManyRequests(status: int, message: string)

  /** `request.ip || 'unknown'`. */
  function KeyOf(ip: Option<string>): (key: string)
    ensures ip.Some? && ip.value != "" ==> key == ip.value
    ensures ip.None? || ip.value == "" ==> key == UnknownIp
  {
    if ip.Some? && ip.value != "" then ip.value else UnknownIp
  }

  /**
   * One request from a key whose entry was `entry` (absent for a key not seen before), at time
   * `now`: the new entry and the verdict.
   */
  function Admit(entry: Option<Entry>, now: int): (r: (Entry, Verdict))
    ensures entry.None? ==> r == (Entry(1, now + WindowMs), Allow)
    ensures entry.Some? && now > entry.value.resetTime ==> r == (Entry(1, now + WindowMs), Allow)
    ensures entry.Some? && now <= entry.value.resetTime ==>
              r.0 == Entry(entry.value.count + 1, entry.value.resetTime)
    ensures (r.1 == TooManyRequests(429, "Too many requests"))
              <==> (entry.Some? && now <= entry.value.resetTime && entry.value.count + 1 > MaxRequests)
    ensures r.1.Allow? || r.1 == TooManyRequests(429, "Too many requests")
  {
    match entry
    case None => (Entry(1, now + WindowMs), Allow)
    case Some(e) =>
      if now > e.resetTime then (Entry(1, now + WindowMs), Allow)
      else
        var counted := Entry(e.count + 1, e.resetTime);
        if counted.count > MaxRequests then (counted, TooManyRequests(429, "Too many requests"))
        else (counted, Allow)
  }

  /** The module-level `rateLimitMap`. */
  class RateLimiter {
    var entries: map<string, Entry>

    constructor ()
      ensures entries == map[]
    {
      entries := map[];
    }

    function Lookup(key: string): Option<Entry>
      reads this
    {
      if key in entries then Some(entries[key]) else None
    }

    /** The limiter's `middleware`: counts the request against its key and decides. */
    method Handle(ip: Option<string>, now: int) returns (v: Verdict)
      modifies this
      ensures var key := KeyOf(ip);
              && entries == old(entries)[key := Admit(old(Lookup(key)), now).0]
              && v == Admit(old(Lookup(key)), now).1
    {
      var key := KeyOf(ip);
      if key !in entries {
        entries := entries[key := Entry(1, now + WindowMs)];
        v := Allow;
      } else {
        var e := entries[key];
        if now > e.resetTime {
          entries := entries[key := Entry(1, now + WindowMs)];
          v := Allow;
        } else {
          entries := entries[key := Entry(e.count + 1, e.resetTime)];
          if e.count + 1 > MaxRequests {
            v := TooManyRequests(429, "Too many requests");
          } else {
            v := Allow;
          }
        }
      }
    }
  }

  /** Only the requesting key's entry changes; every other key keeps its entry. */
  lemma {:induction false} OnlyOwnEntryChanges(entries: map<string, Entry>, key: string, other: string, now: int)
    requires other != key
    ensures var after := entries[key := Admit(if key in entries then Some(entries[key]) else None, now).0];
            (other in after <==> other in entries) && (other in entries ==> after[other] == entries[other])
  {
  }

  /**
   * A burst of requests from one key: the verdicts of requests at the times `times`, starting
   * from `entry`.
   */
  function Run(entry: Option<Entry>, times: seq<int>): (r: seq<Verdict>)
    ensures |r| == |times|
    decreases |times|
  {
    if times == [] then []
    else
      var (next, v) := Admit(entry, times[0]);
      [v] + Run(Some(next), times[1..])
  }

  /**
   * Within one window, requests are counted one by one from the entry's count, and the request
   * that brings the count above 10 and every later one are rejected.
   */
  lemma {:induction false} RunWithinWindow(count: int, resetTime: int, times: seq<int>)
    requires forall k :: 0 <= k < |times| ==> times[k] <= resetTime
    ensures forall k :: 0 <= k < |times| ==>
              (Run(Some(Entry(count, resetTime)), times)[k].Allow? <==> count + k + 1 <= MaxRequests)
    decreases |times|
  {
    if times != [] {
      RunWithinWindow(count + 1, resetTime, times[1..]);
      var r := Run(Some(Entry(count, resetTime)), times);
      var rest := Run(Some(Entry(count + 1, resetTime)), times[1..]);
      assert r == [Admit(Some(Entry(count, resetTime)), times[0]).1] + rest;
      forall k | 0 < k < |times|
        ensures r[k].Allow? <==> count + k + 1 <= MaxRequests
      {
        assert r[k] == rest[k - 1];
        assert rest[k - 1].Allow? <==> (count + 1) + (k - 1) + 1 <= MaxRequests;
      }
    }
  }

  /**
   * From an unseen key, a burst whose requests all fall within 15 minutes of the first one
   * has exactly its first 10 requests allowed: the 11th and later are rejected.
   */
  lemma {:induction false} BurstFromNewKey(times: seq<int>)
    requires |times| > 0
    requires forall k :: 0 <= k < |times| ==> times[k] <= times[0] + WindowMs
    ensures forall k :: 0 <= k < |times| ==> (Run(None, times)[k].Allow? <==> k < MaxRequests)
  {
    var r := Run(None, times);
    var rest := Run(Some(Entry(1, times[0] + WindowMs)), times[1..]);
    assert r == [Allow] + rest;
    assert forall k :: 0 <= k < |times[1..]| ==> times[1..][k] == times[k + 1];
    RunWithinWindow(1, times[0] + WindowMs, times[1..]);
    forall k | 0 < k < |times|
      ensures r[k].Allow? <==> k < MaxRequests
    {
      assert r[k] == rest[k - 1];
      assert rest[k - 1].Allow? <==> 1 + (k - 1) + 1 <= MaxRequests;
    }
  }

  /** A request strictly after the reset time starts a fresh window, whatever the count was. */
  lemma {:induction false} WindowExpiry(e: Entry, now: int)
    requires now > e.resetTime
    ensures Admit(Some(e), now) == (Entry(1, now + WindowMs), Allow)
  {
  }

  /** Rejected requests still count: a rejection leaves the count one higher. */
  lemma {:induction false} RejectedRequestsCount(e: Entry, now: int)
    requires now <= e.resetTime && e.count >= MaxRequests
    ensures Admit(Some(e), now).1.TooManyRequests?
    ensures Admit(Some(e), now).0.count == e.count + 1
  {
  }
}
