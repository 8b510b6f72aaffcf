/**
 * Access tokens of token.service.ts: the verify set of a process, signing, verification and
 * revocation. A signature is modelled by the key it was made with, Redis by its keys' expiry times.
 */
module AccessTokens {
  import opened Wrappers
  import opened Time

  type Kid = string
  type Key = nat
  type Jti = nat

  const CLOCK_TOLERANCE_SECONDS: int := 30

  // ---------------------------------------------------------------------------
  // Keys (loadSigningKeys, buildJwksDocument)
  // ---------------------------------------------------------------------------

  datatype SigningKeys = SigningKeys(kid: Kid, key: Key, previousKid: Option<Kid>, previousKey: Option<Key>)

  datatype Jwk = Jwk(kid: Kid, key: Key)

  /** The active key, and the previous one if both its kid (not the empty string) and key are set. */
  function BuildJwksDocument(keys: SigningKeys): (jwks: seq<Jwk>)
    ensures Jwk(keys.kid, keys.key) in jwks && 1 <= |jwks| <= 2
  {
    [Jwk(keys.kid, keys.key)]
    + if keys.previousKid.Some? && keys.previousKid.value != "" && keys.previousKey.Some?
      then [Jwk(keys.previousKid.value, keys.previousKey.value)] else []
  }

  function WithKid(jwks: seq<Jwk>, kid: Kid): seq<Key> {
    if jwks == [] then []
    else if jwks[0].kid == kid then [jwks[0].key] + WithKid(jwks[1..], kid)
    else WithKid(jwks[1..], kid)
  }

  /** The local key set answers only if exactly one key carries the token's kid. */
  function SelectKey(jwks: seq<Jwk>, kid: Kid): Option<Key> {
    var candidates := WithKid(jwks, kid);
    if |candidates| == 1 then Some(candidates[0]) else None
  }

  // ---------------------------------------------------------------------------
  // Tokens
  // ---------------------------------------------------------------------------

  datatype Token = Token(kid: Kid, signedWith: Key, jti: Jti, iat: int, nbf: int, exp: int)

  datatype Verdict = Valid | Expired | Invalid | Revoked

  function Sign(keys: SigningKeys, jti: Jti, now: int, ttl: nat): Token {
    var seconds := FloorSeconds(now);
    Token(keys.kid, keys.key, jti, seconds, seconds, seconds + ttl)
  }

  predicate NotYetValid(t: Token, now: int) {
    t.nbf > FloorSeconds(now) + CLOCK_TOLERANCE_SECONDS
  }

  /** The expiry check: section 4.1.4 of RFC 7519 with the configured tolerance. */
  predicate HasExpired(t: Token, now: int) {
    t.exp <= FloorSeconds(now) - CLOCK_TOLERANCE_SECONDS
  }

  type Revocations = map<Jti, int>

  predicate IsRevoked(redis: Revocations, jti: Jti, now: int) {
    jti in redis && now < redis[jti]
  }

  /** Signature, then nbf, then exp, then the revocation list. */
  function Verify(jwks: seq<Jwk>, redis: Revocations, t: Token, now: int): Verdict {
    if SelectKey(jwks, t.kid) != Some(t.signedWith) then Invalid
    else if NotYetValid(t, now) then Invalid
    else if HasExpired(t, now) then Expired
    else if IsRevoked(redis, t.jti, now) then Revoked
    else Valid
  }

  function ExpiryDate(exp: int): int { exp * MS_PER_SECOND }

  /** The expiry check first rejects a token thirty seconds after its exp. */
  lemma ExpiryCheckBoundary(t: Token, now: int)
    ensures HasExpired(t, now) <==> ExpiryDate(t.exp + CLOCK_TOLERANCE_SECONDS) <= now
    ensures HasExpired(t, now) <==> (t.exp + 30) * 1000 <= now
    ensures NotYetValid(t, now) <==> now < (t.nbf - 30) * 1000
  {
  }

  /** A process publishes a second key if the previous kid, not empty, and the previous key are both set. */
  predicate HasPrevious(keys: SigningKeys) {
    keys.previousKid.Some? && keys.previousKid.value != "" && keys.previousKey.Some?
  }

  /** The signature verifies exactly with the one published key under the token's kid. */
  lemma SelectsByKid(keys: SigningKeys, kid: Kid, key: Key)
    ensures SelectKey(BuildJwksDocument(keys), kid) == Some(key) <==>
              || (kid == keys.kid && key == keys.key && !(HasPrevious(keys) && keys.previousKid.value == kid))
              || (HasPrevious(keys) && kid == keys.previousKid.value && key == keys.previousKey.value &&
                 kid != keys.kid)
  {
    var jwks := BuildJwksDocument(keys);
    if HasPrevious(keys) {
      assert jwks[1..] == [Jwk(keys.previousKid.value, keys.previousKey.value)] && jwks[1..][1..] == [];
      assert WithKid(jwks[1..], kid) == if keys.previousKid.value == kid then [keys.previousKey.value] else [];
    } else {
      assert jwks == [Jwk(keys.kid, keys.key)] && jwks[1..] == [];
      assert WithKid(jwks, kid) == if keys.kid == kid then [keys.key] else [];
    }
  }

  class Service {
    const env: SigningKeys
    const ttl: nat
    var cachedKeys: Option<SigningKeys>
    var cachedJwksDocument: Option<seq<Jwk>>
    var redis: Revocations

    /** The caches, once filled, hold what this process's environment says for good. */
    ghost predicate Valid()
      reads this
    {
      && (cachedKeys.Some? ==> cachedKeys.value == env)
      && (cachedJwksDocument.Some? ==> cachedJwksDocument.value == BuildJwksDocument(env))
    }

    constructor (keys: SigningKeys, ttlSeconds: nat)
      ensures Valid() && env == keys && ttl == ttlSeconds && redis == map[]
    {
      env, ttl := keys, ttlSeconds;
      cachedKeys, cachedJwksDocument, redis := None, None, map[];
    }

    method LoadSigningKeys() returns (keys: SigningKeys)
      requires Valid()
      modifies this`cachedKeys
      ensures Valid() && keys == env
    {
      if cachedKeys.Some? {
        return cachedKeys.value;
      }
      cachedKeys := Some(env);
      keys := env;
    }

    method GetJwksDocument() returns (jwks: seq<Jwk>)
      requires Valid()
      modifies this`cachedKeys, this`cachedJwksDocument
      ensures Valid() && jwks == BuildJwksDocument(env)
      ensures |jwks| == (if env.previousKid.Some? && env.previousKid.value != "" && env.previousKey.Some? then 2 else 1)
      ensures jwks[0] == Jwk(env.kid, env.key)
      ensures |jwks| == 2 ==> jwks[1] == Jwk(env.previousKid.value, env.previousKey.value)
    {
      if cachedJwksDocument.None? {
        var keys := LoadSigningKeys();
        cachedJwksDocument := Some(BuildJwksDocument(keys));
      }
      jwks := cachedJwksDocument.value;
    }

    method SignAccessToken(jti: Jti, now: int) returns (token: Token)
      requires Valid()
      modifies this`cachedKeys
      ensures Valid() && token == Sign(env, jti, now, ttl)
      ensures token.kid == env.kid && token.signedWith == env.key && token.jti == jti
      ensures token.iat * 1000 <= now < token.iat * 1000 + 1000
      ensures token.nbf == token.iat && token.exp == token.iat + ttl
    {
      var keys := LoadSigningKeys();
      var nowSeconds := FloorSeconds(now);
      var expSeconds := nowSeconds + ttl;
      token := Token(keys.kid, keys.key, jti, nowSeconds, nowSeconds, expSeconds);
    }

    /** `now` is when the TTL is computed, `written` when Redis executes the SET. */
    method RevokeToken(jti: Jti, expiresAt: int, now: int, written: int)
      requires Valid() && now <= written
      modifies this`redis
      ensures Valid()
      ensures expiresAt <= now ==> redis == old(redis)
      ensures now < expiresAt ==>
                && jti in redis && redis == old(redis)[jti := redis[jti]]
                && expiresAt <= redis[jti] < expiresAt + 1000 + (written - now)
    {
      var ttlSeconds := TtlSecondsUntil(now, expiresAt);
      if ttlSeconds <= 0 {
        return;
      }
      TtlOvershoot(now, expiresAt);
      redis := redis[jti := written + ttlSeconds * MS_PER_SECOND];
    }

    /**
     * `ours`: the token is signed with the one key this process publishes under its kid. Invalid
     * before anything else if it is not, or if nbf is more than 30 seconds ahead; then expired from
     * 30 seconds after exp; then revoked while its entry lives; valid in all other cases.
     */
    method VerifyAccessToken(token: Token, now: int) returns (verdict: Verdict)
      requires Valid()
      modifies this`cachedKeys, this`cachedJwksDocument
      ensures Valid() && verdict == Verify(BuildJwksDocument(env), redis, token, now)
      ensures var previous := env.previousKid.Some? && env.previousKid.value != "" && env.previousKey.Some?;
              var ours :=
                || (token.kid == env.kid && token.signedWith == env.key &&
                   !(previous && env.previousKid.value == env.kid))
                || (previous && token.kid == env.previousKid.value && token.signedWith == env.previousKey.value &&
                   token.kid != env.kid);
              var begun, over := (token.nbf - 30) * 1000 <= now, (token.exp + 30) * 1000 <= now;
              var revoked := token.jti in redis && now < redis[token.jti];
              && (verdict.Invalid? <==> !(ours && begun))
              && (verdict.Expired? <==> ours && begun && over)
              && (verdict.Revoked? <==> ours && begun && !over && revoked)
              && (verdict.Valid? <==> ours && begun && !over && !revoked)
    {
      SelectsByKid(env, token.kid, token.signedWith);
      ExpiryCheckBoundary(token, now);
      var jwks := GetJwksDocument();
      if SelectKey(jwks, token.kid) != Some(token.signedWith) {
        return Invalid;
      }
      if NotYetValid(token, now) {
        return Invalid;
      }
      if HasExpired(token, now) {
        return Expired;
      }
      if IsRevoked(redis, token.jti, now) {
        return Revoked;
      }
      return Verdict.Valid;
    }
  }
}
