/** The module-level access-token cache of the older document-library helper:
    a token and the time it stops being used. A call serves the cached token
    while it is truthy and not yet expired. Otherwise it asks the identity
    platform for a new one and replaces the whole cache when the answer is
    200. Any failure leaves the cache as it was. */
module TokenCache {
  import opened Common
  import AzSpeech

  const DefaultExpiresIn: int := 3600
  /** The new token is dropped this many seconds before it expires. */
  const Margin: int := 300
  const RefusedPrefix: string := "Failed to get access token: "
  const TransportPrefix: string := "HTTP Request failed: "

  /** Python's name for the type of a decoded JSON value. */
  function TypeName(j: Json): string
  {
    match j
    case JNull => "NoneType"
    case JBool(_) => "bool"
    case JNum(_) => "int"
    case JStr(_) => "str"
    case JArr(_) => "list"
    case JObj(_) => "dict"
  }

  /** `time.time() + expires_in` with an operand that is not a number. */
  function NotANumber(j: Json): Error
  {
    Failure("unsupported operand type(s) for +: 'float' and '" + TypeName(j) + "'")
  }

  /** The cache's two entries; time is in seconds. */
  datatype Cache = Cache(accessToken: Json, expiresAt: real)

  const Initial: Cache := Cache(JNull, 0.0)

  /** The cached token may be served at time `now`. */
  predicate Fresh(c: Cache, now: real)
  {
    Truthy(c.accessToken) && c.expiresAt > now
  }

  /** How the token request went: a response, or the transport's exception. */
  datatype Exchange = Responded(response: AzSpeech.HttpResponse) | TransportFailed(message: string)

  /** `token_data.get("expires_in", 3600)`, used as a number of seconds; a
      boolean adds as 0 or 1, any other non-number raises TypeError. */
  function ExpiresIn(tokenData: Json): (r: Result<int>)
    requires tokenData.JObj?
    ensures "expires_in" !in tokenData.fields ==> r == Ok(DefaultExpiresIn)
    ensures "expires_in" in tokenData.fields ==>
      var e := tokenData.fields["expires_in"];
      && (r.Ok? <==> e.JNum? || e.JBool?)
      && (e.JNum? ==> r == Ok(e.n))
      && (e.JBool? ==> r == Ok(if e.b then 1 else 0))
      && (r.Err? ==> r.error == NotANumber(e))
  {
    if "expires_in" !in tokenData.fields then Ok(DefaultExpiresIn)
    else
      var e := tokenData.fields["expires_in"];
      match e
      case JNum(n) => Ok(n)
      case JBool(b) => Ok(if b then 1 else 0)
      case _ => Err(NotANumber(e))
  }

  /** What one `get_access_token` call returns or raises, the cache after
      it, and whether it sent a request. */
  datatype Call = Call(result: Result<Json>, cache: Cache, requested: bool)

  function GetAccessTokenSpec(c: Cache, now: real, exchange: Exchange): Call
  {
    if Fresh(c, now) then Call(Ok(c.accessToken), c, false)
    else
      match exchange
      case TransportFailed(m) => Call(Err(HttpError(500, TransportPrefix + m)), c, true)
      case Responded(response) =>
        if response.status != 200 then Call(Err(HttpError(response.status, RefusedPrefix + response.text)), c, true)
        else
          match Get(response.json, "access_token")
          case Err(e) => Call(Err(e), c, true)
          case Ok(token) =>
            match ExpiresIn(response.json)
            case Err(e) => Call(Err(e), c, true)
            case Ok(n) => Call(Ok(token), Cache(token, now + n as real - Margin as real), true)
  }

  /** The global cache, replaced in place on refresh. */
  class TokenStore {
    var accessToken: Json
    var expiresAt: real

    function Contents(): Cache
      reads this
    {
      Cache(accessToken, expiresAt)
    }

    constructor ()
      ensures Contents() == Initial
    {
      accessToken, expiresAt := JNull, 0.0;
    }

    /** `get_access_token` at time `now`; `exchange` is what the request
        would bring back. */
    method GetAccessToken(now: real, exchange: Exchange) returns (r: Result<Json>, requested: bool)
      modifies this
      ensures Call(r, Contents(), requested) == GetAccessTokenSpec(old(Contents()), now, exchange)
    {
      if Truthy(accessToken) && expiresAt > now {
        return Ok(accessToken), false;
      }
      requested := true;
      if exchange.TransportFailed? {
        return Err(HttpError(500, TransportPrefix + exchange.message)), requested;
      }
      var response := exchange.response;
      if response.status != 200 {
        return Err(HttpError(response.status, RefusedPrefix + response.text)), requested;
      }
      var token := Get(response.json, "access_token");
      if token.Err? {
        return Err(token.error), requested;
      }
      var expiresIn := ExpiresIn(response.json);
      if expiresIn.Err? {
        return Err(expiresIn.error), requested;
      }
      accessToken := token.value;
      expiresAt := now + expiresIn.value as real - Margin as real;
      r := Ok(token.value);
    }
  }

  /** A fresh cached token is served as it is, with no request and no change. */
  lemma FreshTokenIsServed(c: Cache, now: real, exchange: Exchange)
    requires Fresh(c, now)
    ensures GetAccessTokenSpec(c, now, exchange) == Call(Ok(c.accessToken), c, false)
  {
  }

  /** A failed call leaves the cache as it was; a refused request raises its
      own status with the response text, a transport failure raises 500. */
  lemma FailureKeepsCache(c: Cache, now: real, exchange: Exchange)
    ensures var call := GetAccessTokenSpec(c, now, exchange);
      call.result.Err? ==> call.cache == c && call.requested
    ensures var call := GetAccessTokenSpec(c, now, exchange);
      !Fresh(c, now) && exchange.Responded? && exchange.response.status != 200 ==>
        call.result == Err(HttpError(exchange.response.status, RefusedPrefix + exchange.response.text))
    ensures var call := GetAccessTokenSpec(c, now, exchange);
      !Fresh(c, now) && exchange.TransportFailed? ==>
        call.result == Err(HttpError(500, TransportPrefix + exchange.message))
  {
  }

  /** A 200 answer with a token replaces the cache: the token, and an expiry
      `expires_in` (3600 when absent) minus 300 seconds after `now`. */
  lemma RefreshReplacesCache(c: Cache, now: real, response: AzSpeech.HttpResponse, token: Json)
    requires !Fresh(c, now)
    requires response.status == 200 && response.json.JObj?
    requires Get(response.json, "access_token") == Ok(token)
    ensures "expires_in" !in response.json.fields ==>
      GetAccessTokenSpec(c, now, Responded(response)) == Call(Ok(token), Cache(token, now + 3300.0), true)
    ensures "expires_in" in response.json.fields && response.json.fields["expires_in"].JNum? ==>
      var n := response.json.fields["expires_in"].n;
      GetAccessTokenSpec(c, now, Responded(response)) == Call(Ok(token), Cache(token, now + n as real - 300.0), true)
  {
  }

  /** After a refresh at `now`, every call before the new expiry is served
      from the cache without a request, and returns the same token — as long
      as the token is truthy. A token granted for 300 seconds or less is never
      served from the cache. */
  lemma {:induction false} RefreshThenServe(c: Cache, now: real, response: AzSpeech.HttpResponse,
                                            later: real, exchange: Exchange)
    requires GetAccessTokenSpec(c, now, Responded(response)).requested
    requires GetAccessTokenSpec(c, now, Responded(response)).result.Ok?
    requires now <= later
    ensures var first := GetAccessTokenSpec(c, now, Responded(response));
      var second := GetAccessTokenSpec(first.cache, later, exchange);
      && (Truthy(first.result.value) && later < first.cache.expiresAt ==>
            second == Call(first.result, first.cache, false))
      && (first.cache.expiresAt <= now ==> second.requested)
  {
    var first := GetAccessTokenSpec(c, now, Responded(response));
    var n := ExpiresIn(response.json).value;
    assert first.cache == Cache(first.result.value, now + n as real - Margin as real);
  }
}
