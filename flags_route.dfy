/**
 * The decision logic of `GET` in src/app/api/flags/route.ts, as a pure
 * function of its inputs: the two environment variables, the request's
 * `x-vercel-id` header and `ph_distinct_id` cookie, the flag service's answer
 * for a distinct id, and the values `crypto.randomUUID()` returns.
 *
 * The service is a function from a distinct id to its flags or to a failure;
 * a failure stands for `getAllFlags` or `shutdown` rejecting.
 */
module FlagsRoute {
  import opened Wrappers

  /** A flag value as the service returns it. */
  datatype FlagValue = BoolFlag(b: bool) | StringFlag(s: string)

  /** The `featureFlags` object of the response body. */
  datatype FeatureFlags = FeatureFlags(doubleJump: FlagValue, characterSkin: FlagValue, speedBoost: FlagValue)

  const DoubleJumpKey: string := "game-double-jump"
  const CharacterSkinKey: string := "game-character-skin"
  const SpeedBoostKey: string := "game-speed-boost"

  /** The flags served without a key or after an error (the same as `getDefaultFlags`). */
  const DefaultFlags: FeatureFlags := FeatureFlags(BoolFlag(false), StringFlag("default"), BoolFlag(false))

  const DefaultHost: string := "https://us.i.posthog.com"
  const CookieName: string := "ph_distinct_id"
  /** One year, in seconds. */
  const CookieMaxAge: int := 60 * 60 * 24 * 365

  /** `POSTHOG_API_KEY` and `POSTHOG_HOST`. */
  datatype Env = Env(apiKey: Option<string>, host: Option<string>)

  /** The parts of the request the handler reads. */
  datatype Request = Request(vercelId: Option<string>, cookieId: Option<string>)

  /** What the flag service answers. */
  datatype Lookup = Found(flags: map<string, FlagValue>) | Failed

  /** The client the handler constructs. */
  datatype Client = Client(apiKey: string, host: string)

  datatype Cookie = Cookie(name: string, value: string, maxAge: int, httpOnly: bool, sameSite: string)

  /** The response: its JSON body, the cookie it sets, and the client created for it, if any. */
  datatype Response = Response(distinctId: string, featureFlags: FeatureFlags, cookie: Option<Cookie>, client: Option<Client>)

  /** JavaScript truthiness of an optional string: present and non-empty. */
  predicate Truthy(v: Option<string>) {
    v.Some? && v.value != ""
  }

  /** `POSTHOG_HOST || 'https://us.i.posthog.com'`. */
  function Host(env: Env): (h: string)
    ensures Truthy(env.host) ==> h == env.host.value
    ensures !Truthy(env.host) ==> h == DefaultHost
    ensures h != ""
  {
    if Truthy(env.host) then env.host.value else DefaultHost
  }

  /** `existingId || vercelId || crypto.randomUUID()`. */
  function DistinctId(req: Request, uuid: string): (id: string)
    ensures Truthy(req.cookieId) ==> id == req.cookieId.value
    ensures !Truthy(req.cookieId) && Truthy(req.vercelId) ==> id == req.vercelId.value
    ensures !Truthy(req.cookieId) && !Truthy(req.vercelId) ==> id == uuid
    ensures uuid != "" ==> id != ""
  {
    if Truthy(req.cookieId) then req.cookieId.value
    else if Truthy(req.vercelId) then req.vercelId.value
    else uuid
  }

  /** Whether computing the distinct id drew a random UUID. */
  predicate DrawsUuid(req: Request) {
    !Truthy(req.cookieId) && !Truthy(req.vercelId)
  }

  /** `flags[key] ?? default`. */
  function FlagOr(flags: map<string, FlagValue>, key: string, default: FlagValue): (v: FlagValue)
    ensures key in flags ==> v == flags[key]
    ensures key !in flags ==> v == default
  {
    if key in flags then flags[key] else default
  }

  /** The response flags: each one passed through when the service defines it, else its default. */
  function Normalize(flags: map<string, FlagValue>): (f: FeatureFlags)
    ensures DoubleJumpKey in flags ==> f.doubleJump == flags[DoubleJumpKey]
    ensures DoubleJumpKey !in flags ==> f.doubleJump == DefaultFlags.doubleJump
    ensures CharacterSkinKey in flags ==> f.characterSkin == flags[CharacterSkinKey]
    ensures CharacterSkinKey !in flags ==> f.characterSkin == DefaultFlags.characterSkin
    ensures SpeedBoostKey in flags ==> f.speedBoost == flags[SpeedBoostKey]
    ensures SpeedBoostKey !in flags ==> f.speedBoost == DefaultFlags.speedBoost
  {
    FeatureFlags(
      FlagOr(flags, DoubleJumpKey, BoolFlag(false)),
      FlagOr(flags, CharacterSkinKey, StringFlag("default")),
      FlagOr(flags, SpeedBoostKey, BoolFlag(false)))
  }

  /**
   * `GET`. `firstUuid` and `secondUuid` are the first and second values
   * `crypto.randomUUID()` returns during the call.
   */
  function Get(env: Env, req: Request, service: string -> Lookup, firstUuid: string, secondUuid: string): (r: Response)
    // no key: the defaults with a fresh id, no cookie, and no client
    ensures !Truthy(env.apiKey) ==> r == Response(firstUuid, DefaultFlags, None, None)
    // with a key: a client for the key and the host
    ensures Truthy(env.apiKey) ==> r.client == Some(Client(env.apiKey.value, Host(env)))
    // the service answered for the chosen id
    ensures Truthy(env.apiKey) && service(DistinctId(req, firstUuid)).Found? ==>
      && r.distinctId == DistinctId(req, firstUuid)
      && r.featureFlags == Normalize(service(DistinctId(req, firstUuid)).flags)
      && (r.cookie.Some? <==> !Truthy(req.cookieId))
      && (r.cookie.Some? ==> r.cookie.value == Cookie(CookieName, r.distinctId, 31536000, true, "lax"))
    // the service failed: the defaults with a fresh id, no cookie
    ensures Truthy(env.apiKey) && service(DistinctId(req, firstUuid)).Failed? ==>
      && r.featureFlags == DefaultFlags && r.cookie == None
      && r.distinctId == (if DrawsUuid(req) then secondUuid else firstUuid)
  {
    if !Truthy(env.apiKey) then
      Response(firstUuid, DefaultFlags, None, None)
    else
      var client := Client(env.apiKey.value, Host(env));
      var distinctId := DistinctId(req, firstUuid);
      match service(distinctId)
      case Found(flags) =>
        var cookie := if !Truthy(req.cookieId)
          then Some(Cookie(CookieName, distinctId, CookieMaxAge, true, "lax")) else None;
        Response(distinctId, Normalize(flags), cookie, Some(client))
      case Failed =>
        // the error path draws a new UUID: the second one if the id above drew the first
        var freshId := if DrawsUuid(req) then secondUuid else firstUuid;
        Response(freshId, DefaultFlags, None, Some(client))
  }

  /** Without a key the service is never consulted: the response does not depend on it. */
  lemma NoKeyIgnoresService(env: Env, req: Request, s1: string -> Lookup, s2: string -> Lookup, u1: string, u2: string)
    requires !Truthy(env.apiKey)
    ensures Get(env, req, s1, u1, u2) == Get(env, req, s2, u1, u2)
    ensures Get(env, req, s1, u1, u2).client == None
  {
  }

  /** Flags the service defines pass through, even `false`; with none defined, all take their defaults. */
  lemma DefinedFlagsPassThrough(a: FlagValue, b: FlagValue, c: FlagValue)
    ensures Normalize(map[]) == DefaultFlags
    ensures Normalize(map[DoubleJumpKey := a, CharacterSkinKey := b, SpeedBoostKey := c]) == FeatureFlags(a, b, c)
    ensures Normalize(map[DoubleJumpKey := BoolFlag(false)]).doubleJump == BoolFlag(false)
  {
    assert DoubleJumpKey != CharacterSkinKey && DoubleJumpKey != SpeedBoostKey && CharacterSkinKey != SpeedBoostKey by {
      assert DoubleJumpKey[5] == 'd' && CharacterSkinKey[5] == 'c' && SpeedBoostKey[5] == 's';
    }
  }

  /** The cookie is set only on a successful lookup, only for a new visitor, and keeps the id for a year. */
  lemma CookieOnlyForNewVisitors(env: Env, req: Request, service: string -> Lookup, u1: string, u2: string)
    ensures var r := Get(env, req, service, u1, u2);
      r.cookie.Some? <==>
        Truthy(env.apiKey) && !Truthy(req.cookieId) && service(DistinctId(req, u1)).Found?
    ensures var r := Get(env, req, service, u1, u2);
      r.cookie.Some? ==> r.cookie.value.value == r.distinctId && r.cookie.value.maxAge == 31536000
  {
  }

  /** A visitor that already has a non-empty cookie id keeps it whenever the lookup succeeds. */
  lemma ReturningVisitorKeepsId(env: Env, req: Request, service: string -> Lookup, u1: string, u2: string)
    requires Truthy(env.apiKey) && Truthy(req.cookieId)
    requires service(req.cookieId.value).Found?
    ensures Get(env, req, service, u1, u2).distinctId == req.cookieId.value
    ensures Get(env, req, service, u1, u2).cookie == None
  {
  }
}
