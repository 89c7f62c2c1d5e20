/**
 * The access check in front of the listing and download endpoints: an
 * optional shared token, then a per-client, per-day request quota kept in a
 * map that each accepted request increments in place.
 *
 * The configured token and daily limit are constructor parameters; the
 * current day (a day number) and the client address are parameters of each
 * call.
 */
module Security {
  import opened Wrappers
  import opened Text

  datatype HttpError = HttpError(status: nat, detail: string)

  /** A quota key: the client address and the day. */
  datatype Key = Key(client: string, day: int)

  const InvalidToken := "Invalid API Access Token"

  /** `str(i)` for an integer. */
  function IntToString(i: int): (s: string)
    ensures |s| >= 1
    ensures i >= 0 ==> AllDigits(s) && DigitsValue(s) == i
    ensures i < 0 ==> s[0] == '-' && AllDigits(s[1..]) && DigitsValue(s[1..]) == -i
  {
    if i < 0 then "-" + NatToString(-i) else NatToString(i)
  }

  function LimitReached(limit: int): string {
    "Daily request limit reached (" + IntToString(limit) + "). Please try again tomorrow."
  }

  /** The key a request is counted under: a request without a client
      address counts as "unknown". */
  function KeyFor(client: Option<string>, today: int): (k: Key)
    ensures k.day == today
    ensures client.None? ==> k.client == "unknown"
    ensures client.Some? ==> k.client == client.value
  {
    Key(if client.Some? then client.value else "unknown", today)
  }

  class AccessGuard {
    /** The configured access token; "" when none is configured. */
    const token: string
    /** The number of requests a client may make per day. */
    const limit: int
    /** `_usage_cache`: requests accepted so far, per client and day. */
    var usage: map<Key, int>

    /** Every recorded count is a real request and stays within the limit. */
    ghost predicate Valid()
      reads this
    {
      forall k :: k in usage ==> 1 <= usage[k] <= limit
    }

    /** `_usage_cache.get(key, 0)` */
    function Count(k: Key): (n: int)
      reads this
      ensures k !in usage ==> n == 0
      ensures Valid() && k in usage ==> 1 <= n <= limit
    {
      if k in usage then usage[k] else 0
    }

    constructor (token: string, limit: int)
      ensures this.token == token && this.limit == limit
      ensures usage == map[]
      ensures Valid()
    {
      this.token := token;
      this.limit := limit;
      usage := map[];
    }

    /** Whether the token check lets a request with header `apiKey` through. */
    predicate TokenAccepted(apiKey: Option<string>) {
      token == "" || apiKey == Some(token)
    }

    /** `verify_api_access` */
    method VerifyAccess(apiKey: Option<string>, client: Option<string>, today: int) returns (r: Result<bool, HttpError>)
      modifies this
      ensures !TokenAccepted(apiKey) ==> r == Err(HttpError(403, InvalidToken)) && usage == old(usage)
      ensures TokenAccepted(apiKey) && old(Count(KeyFor(client, today))) >= limit ==>
        r == Err(HttpError(429, LimitReached(limit))) && usage == old(usage)
      ensures TokenAccepted(apiKey) && old(Count(KeyFor(client, today))) < limit ==>
        r == Ok(true) && usage == old(usage)[KeyFor(client, today) := old(Count(KeyFor(client, today))) + 1]
      ensures r.Ok? <==> TokenAccepted(apiKey) && old(Count(KeyFor(client, today))) < limit
      ensures forall k :: k != KeyFor(client, today) ==> Count(k) == old(Count(k))
      ensures old(Valid()) ==> Valid()
    {
      if token != "" && apiKey != Some(token) {
        return Err(HttpError(403, InvalidToken));
      }
      var clientIp := if client.Some? then client.value else "unknown";
      var key := Key(clientIp, today);
      var current := if key in usage then usage[key] else 0;
      if current >= limit {
        return Err(HttpError(429, LimitReached(limit)));
      }
      usage := usage[key := current + 1];
      return Ok(true);
    }
  }

  /** With a limit of zero or less no request is ever recorded, so every
      request that passes the token check is turned away. */
  lemma NegativeLimitRefuses(g: AccessGuard, k: Key)
    requires g.Valid() && g.limit <= 0
    ensures g.Count(k) >= g.limit
    ensures g.usage == map[]
  {
    if g.usage != map[] {
      var k2 :| k2 in g.usage;
      assert false;
    }
  }
}
