/**
 * The part of the JWT library (python-jose) that the token codec relies on, with signing made
 * opaque: a token is the claim set itself together with the key and algorithm that signed it.
 * Encoding is therefore injective, and decoding with the public half of the signing key
 * returns exactly the claims that were encoded. Claim names follow RFC 7519: `sub` is the
 * subject claim of section 4.1.2 and `exp` the expiration time claim of section 4.1.4.
 * Times are whole minutes.
 */
module Jose {
  import opened Wrappers

  /** A JSON claim value: a string or an integer (a NumericDate for `exp`). */
  datatype Claim = Str(text: string) | Num(value: int)

  /** A JWT claim set: a JSON object keyed by claim name. */
  type Claims = map<string, Claim>

  /** The subject claim (RFC 7519, section 4.1.2). */
  const SubClaim: string := "sub"

  /** The expiration time claim (RFC 7519, section 4.1.4). */
  const ExpClaim: string := "exp"

  /** Python's `payload.get(name)`. */
  function ClaimOf(claims: Claims, name: string): (r: Option<Claim>)
    ensures r.Some? <==> name in claims
    ensures r.Some? ==> claims[name] == r.value
  {
    if name in claims then Some(claims[name]) else None
  }

  /** An asymmetric key, abstracted to the key pair it belongs to and which half of it it is. */
  datatype Key = PrivateKey(pair: nat) | PublicKey(pair: nat)

  /** A public key verifies exactly the signatures made with the private half of its own pair. */
  predicate Verifies(publicKey: Key, signer: Key)
  {
    publicKey.PublicKey? && signer.PrivateKey? && publicKey.pair == signer.pair
  }

  /** A token as received: either a signed claim set or a string that is no JWS at all. */
  datatype Jwt = Signed(claims: Claims, signer: Key, alg: string) | Malformed(text: string)

  /** The library's decoding errors. Every one of them is a subclass of `JWTError`. */
  datatype JoseError =
    | BadFormat         // not a compact JWS
    | AlgNotAllowed     // header algorithm not among the accepted ones
    | BadSignature      // signature does not verify with the given key
    | SignatureExpired  // ExpiredSignatureError: `exp` lies before the current time
    | BadClaim          // JWTClaimsError: `exp` not an integer, `sub` not a string

  /**
   * `jwt.encode(claims, key, algorithm=alg)`. Signing is opaque: the token records what was
   * signed, with which key and under which algorithm, so distinct inputs give distinct tokens.
   */
  function Encode(claims: Claims, key: Key, alg: string): Jwt
  {
    Signed(claims, key, alg)
  }

  /** `exp`, when present, is an integer that has not yet passed. */
  predicate Unexpired(claims: Claims, now: int)
  {
    ExpClaim in claims ==> claims[ExpClaim].Num? && now <= claims[ExpClaim].value
  }

  /**
   * `jwt.decode(token, key, algorithms=algorithms)` at time `now`: the signature is checked
   * first, then the registered claims, `exp` before `sub`.
   */
  function Decode(token: Jwt, key: Key, algorithms: seq<string>, now: int): (r: Result<Claims, JoseError>)
    ensures r.Success? ==> token.Signed? && r.value == token.claims
    ensures r.Success? ==> token.alg in algorithms && Verifies(key, token.signer)
    ensures r.Success? ==> Unexpired(token.claims, now)
    ensures r.Success? && SubClaim in r.value ==> r.value[SubClaim].Str?
    ensures r == Failure(SignatureExpired) <==>
      token.Signed? && token.alg in algorithms && Verifies(key, token.signer) &&
      ExpClaim in token.claims && token.claims[ExpClaim].Num? && token.claims[ExpClaim].value < now
  {
    match token
    case Malformed(_) => Failure(BadFormat)
    case Signed(claims, signer, alg) =>
      if alg !in algorithms then Failure(AlgNotAllowed)
      else if !Verifies(key, signer) then Failure(BadSignature)
      else if ExpClaim in claims && !claims[ExpClaim].Num? then Failure(BadClaim)
      else if ExpClaim in claims && claims[ExpClaim].value < now then Failure(SignatureExpired)
      else if SubClaim in claims && !claims[SubClaim].Str? then Failure(BadClaim)
      else Success(claims)
  }

  /** Decoding inverts encoding when the keys match, the algorithm is accepted and the claims are valid. */
  lemma DecodeEncode(claims: Claims, privateKey: Key, publicKey: Key, alg: string, algorithms: seq<string>, now: int)
    requires Verifies(publicKey, privateKey) && alg in algorithms
    requires Unexpired(claims, now)
    requires SubClaim in claims ==> claims[SubClaim].Str?
    ensures Decode(Encode(claims, privateKey, alg), publicKey, algorithms, now) == Success(claims)
  {
  }
}
