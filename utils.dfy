/** The token codec: building a claim set with its expiry, and checking a received token. */
module Utils {
  import opened Wrappers
  import opened Jose
  import opened Config

  /** The lifetime, in minutes, used when no (or a zero) lifetime is requested. */
  const DefaultLifetime: int := 15

  /** The purpose claim and the one purpose value the codec checks. */
  const TypeClaim: string := "type"
  const ResetType: string := "reset"

  /** Python truthiness of `expires_delta`: present and not a zero duration. */
  predicate Truthy(expiresDelta: Option<int>)
  {
    expiresDelta.Some? && expiresDelta.value != 0
  }

  /** The lifetime `create_access_token` applies: the requested one when truthy, else the default; never zero. */
  function Lifetime(expiresDelta: Option<int>): (m: int)
    ensures m != 0
    ensures Truthy(expiresDelta) ==> m == expiresDelta.value
    ensures !Truthy(expiresDelta) ==> m == DefaultLifetime
  {
    if Truthy(expiresDelta) then expiresDelta.value else DefaultLifetime
  }

  /**
   * `create_access_token(priv_key, algo, data, expires_delta)` at time `now`: a copy of `data`
   * with `exp` added (or overwritten), signed with `privKey` under `algo`. A truthy lifetime
   * gives `exp = now + lifetime`; a missing or zero one gives `now + 15`.
   */
  function CreateAccessToken(privKey: Key, algo: string, data: Claims, expiresDelta: Option<int>, now: int): (t: Jwt)
    ensures t.Signed? && t.signer == privKey && t.alg == algo
    ensures t.claims.Keys == data.Keys + {ExpClaim}
    ensures forall k :: k in data && k != ExpClaim ==> t.claims[k] == data[k]
    ensures Truthy(expiresDelta) ==> t.claims[ExpClaim] == Num(now + expiresDelta.value)
    ensures !Truthy(expiresDelta) ==> t.claims[ExpClaim] == Num(now + DefaultLifetime)
  {
    var toEncode := data[ExpClaim := Num(now + Lifetime(expiresDelta))];
    Encode(toEncode, privKey, algo)
  }

  /** `TokenData`: the subject of an accepted token. */
  datatype TokenData = TokenData(username: string)

  /** Why `decode_token` refused: a library error, or its own "Could not validate credentials". */
  datatype DecodeError = JoseFailure(cause: JoseError) | InvalidCredentials

  /**
   * `decode_token(token, config, is_reset)` at time `now`: the library decode with the
   * configured public key and algorithm, then a subject must be present and, when `isReset`
   * holds, the `type` claim must be exactly "reset".
   */
  function DecodeToken(token: Jwt, config: RouterConfig, isReset: bool, now: int): (r: Result<TokenData, DecodeError>)
    ensures r.Success? <==>
      Decode(token, config.pubKey, [config.algorithm], now).Success? &&
      SubClaim in token.claims &&
      (isReset ==> ClaimOf(token.claims, TypeClaim) == Some(Str(ResetType)))
    ensures r.Success? ==> token.claims[SubClaim] == Str(r.value.username)
    ensures r.Success? ==> Verifies(config.pubKey, token.signer) && Unexpired(token.claims, now)
    ensures Decode(token, config.pubKey, [config.algorithm], now).Failure? ==>
      r == Failure(JoseFailure(Decode(token, config.pubKey, [config.algorithm], now).error))
    ensures Decode(token, config.pubKey, [config.algorithm], now).Success? && r.Failure? ==>
      r == Failure(InvalidCredentials)
  {
    match Decode(token, config.pubKey, [config.algorithm], now)
    case Failure(e) => Failure(JoseFailure(e))
    case Success(payload) =>
      var username := ClaimOf(payload, SubClaim);
      var msgType := ClaimOf(payload, TypeClaim);
      if username.None? || (msgType != Some(Str(ResetType)) && isReset) then Failure(InvalidCredentials)
      else Success(TokenData(username.value.text))
  }

  /**
   * Round trip: a token created from claims whose subject is `subject` decodes, before it
   * expires and under the matching public key, to that subject; with `isReset` it is accepted
   * exactly when the claims carry `type` "reset".
   */
  lemma DecodeCreatedToken(c: RouterConfig, data: Claims, expiresDelta: Option<int>, issued: int, now: int, isReset: bool, subject: string)
    requires Verifies(c.pubKey, c.privKey)
    requires ClaimOf(data, SubClaim) == Some(Str(subject))
    requires now <= issued + Lifetime(expiresDelta)
    ensures DecodeToken(CreateAccessToken(c.privKey, c.algorithm, data, expiresDelta, issued), c, isReset, now) ==
      if !isReset || ClaimOf(data, TypeClaim) == Some(Str(ResetType)) then Success(TokenData(subject))
      else Failure(InvalidCredentials)
  {
  }

  /** Once its lifetime has passed, a created token is refused by the library as expired. */
  lemma CreatedTokenExpires(c: RouterConfig, data: Claims, expiresDelta: Option<int>, issued: int, now: int, isReset: bool)
    requires Verifies(c.pubKey, c.privKey)
    requires issued + Lifetime(expiresDelta) < now
    ensures DecodeToken(CreateAccessToken(c.privKey, c.algorithm, data, expiresDelta, issued), c, isReset, now) ==
      Failure(JoseFailure(SignatureExpired))
  {
  }

  /** A decode that demands a reset token refuses every token without `type` "reset", auth and activation tokens included. */
  lemma ResetDecodeRejectsOtherPurposes(c: RouterConfig, token: Jwt, now: int)
    requires token.Signed? && ClaimOf(token.claims, TypeClaim) != Some(Str(ResetType))
    ensures DecodeToken(token, c, true, now).Failure?
  {
  }

  /** A decode that does not demand a reset token ignores the `type` claim altogether. */
  lemma {:induction false} PlainDecodeIgnoresType(c: RouterConfig, claims1: Claims, claims2: Claims, signer: Key, alg: string, now: int)
    requires claims1 - {TypeClaim} == claims2 - {TypeClaim}
    ensures DecodeToken(Signed(claims1, signer, alg), c, false, now) == DecodeToken(Signed(claims2, signer, alg), c, false, now)
  {
    assert SubClaim != TypeClaim && ExpClaim != TypeClaim;
    assert SubClaim in claims1 <==> SubClaim in claims1 - {TypeClaim};
    assert SubClaim in claims2 <==> SubClaim in claims2 - {TypeClaim};
    assert ExpClaim in claims1 <==> ExpClaim in claims1 - {TypeClaim};
    assert ExpClaim in claims2 <==> ExpClaim in claims2 - {TypeClaim};
    if SubClaim in claims1 {
      assert claims1[SubClaim] == (claims1 - {TypeClaim})[SubClaim] == claims2[SubClaim];
    }
    if ExpClaim in claims1 {
      assert claims1[ExpClaim] == (claims1 - {TypeClaim})[ExpClaim] == claims2[ExpClaim];
    }
  }
}
